/** The parser against the grammar: what it returns is what some sentence with these tokens means, and every sentence
    is parsed to its meaning. */
module ShellParses {
  import opened Shell
  import opened ShellGrammar

  // ---- redirections ----

  lemma {:induction false} WrapOuter(c: Cmd, r: Redirection, rs: seq<Redirection>)
    ensures Wrap(Redir(c, r), rs) == Wrap(c, [r] + rs)
    decreases |rs|
  {
    if rs == [] {
      assert [r][..0] == [];
      assert [r] + rs == [r];
    } else {
      WrapOuter(c, r, rs[..|rs| - 1]);
      assert ([r] + rs)[..|rs|] == [r] + rs[..|rs| - 1];
    }
  }

  lemma {:induction false} WrapIsAround(c: Cmd, rs: seq<Redirection>)
    ensures Wrap(c, rs) == Around(c, rs)
    decreases |rs|
  {
    if rs != [] {
      WrapOuter(c, rs[0], rs[1..]);
      assert [rs[0]] + rs[1..] == rs;
      WrapIsAround(Redir(c, rs[0]), rs[1..]);
    }
  }

  /** One turn of `parseredirs`. */
  lemma RedirStep(s: string, i: nat, rs: seq<Redirection>) returns (n: nat)
    requires i <= |s|
    ensures n <= |s|
    ensures var ts := Terms(s, i);
            if !Leads(ts, "<>") then ParseRedirs(s, i, rs) == Ok(rs, n) && Terms(s, n) == ts
            else if |ts| < 2 || !ts[1].Name? then ParseRedirs(s, i, rs) == Fail
            else
              && i < n && IsRedirOp(ts[0]) && Terms(s, n) == ts[2..]
              && ParseRedirs(s, i, rs) == ParseRedirs(s, n, rs + [Redirection(ts[1].w, ts[0] != Sym('<'))])
  {
    hide Terms, GetToken, Peek, Skip;
    PeekIs(s, i, "<>");
    SkipSame(s, i);
    NextTerm(s, i);
    var t := GetToken(s, i);
    NextTerm(s, t.next);
    n := if Leads(Terms(s, i), "<>") then GetToken(s, t.next).next else Skip(s, i);
    SkipBound(s, i);
  }

  /** Past the next token. */
  lemma Past(s: string, i: nat, t: Term, rest: seq<Term>)
    requires i <= |s| && Terms(s, i) == [t] + rest
    ensures i < GetToken(s, i).next <= |s| && Terms(s, GetToken(s, i).next) == rest
  {
    hide Terms, GetToken;
    NextTerm(s, i);
    assert ([t] + rest)[1..] == rest;
    assert Terms(s, i)[1..] == Terms(s, GetToken(s, i).next);
  }

  lemma SkipBound(s: string, i: nat)
    requires i <= |s|
    ensures i <= Skip(s, i) <= |s|
  {}

  lemma ItemsCons(x: Item, items: seq<Item>)
    ensures ItemsTerms([x] + items) == ItemTerms(x) + ItemsTerms(items)
    ensures Words([x] + items) == (if x.Arg? then [x.w] else []) + Words(items)
    ensures Redirs([x] + items) ==
      (if x.Redirect? then [Redirection(x.file, x.op != Sym('<'))] else []) + Redirs(items)
  {
    assert ([x] + items)[1..] == items;
  }

  lemma {:induction false} TermsJoin(a: seq<Item>, b: seq<Item>)
    ensures ItemsTerms(a + b) == ItemsTerms(a) + ItemsTerms(b)
    decreases |a|
  {
    hide ItemsTerms;
    NoItems();
    if a == [] {
      assert a + b == b;
    } else {
      TermsJoin(a[1..], b);
      assert a + b == [a[0]] + (a[1..] + b) && [a[0]] + a[1..] == a;
      ItemsCons(a[0], a[1..] + b);
      ItemsCons(a[0], a[1..]);
    }
  }

  lemma {:induction false} WordsJoin(a: seq<Item>, b: seq<Item>)
    ensures Words(a + b) == Words(a) + Words(b)
    decreases |a|
  {
    hide Words;
    NoItems();
    if a == [] {
      assert a + b == b;
    } else {
      WordsJoin(a[1..], b);
      assert a + b == [a[0]] + (a[1..] + b) && [a[0]] + a[1..] == a;
      ItemsCons(a[0], a[1..] + b);
      ItemsCons(a[0], a[1..]);
    }
  }

  lemma {:induction false} RedirsJoin(a: seq<Item>, b: seq<Item>)
    ensures Redirs(a + b) == Redirs(a) + Redirs(b)
    decreases |a|
  {
    hide Redirs;
    NoItems();
    if a == [] {
      assert a + b == b;
    } else {
      RedirsJoin(a[1..], b);
      assert a + b == [a[0]] + (a[1..] + b) && [a[0]] + a[1..] == a;
      ItemsCons(a[0], a[1..] + b);
      ItemsCons(a[0], a[1..]);
    }
  }

  lemma ItemsJoin(a: seq<Item>, b: seq<Item>)
    ensures ItemsTerms(a + b) == ItemsTerms(a) + ItemsTerms(b)
    ensures Words(a + b) == Words(a) + Words(b) && Redirs(a + b) == Redirs(a) + Redirs(b)
  {
    hide ItemsTerms, Words, Redirs;
    TermsJoin(a, b);
    WordsJoin(a, b);
    RedirsJoin(a, b);
  }

  lemma {:induction false} NoWords(items: seq<Item>)
    requires NoArgs(items)
    ensures Words(items) == []
  {
    if items != [] { NoWords(items[1..]); }
  }

  lemma {:induction false} RedirsSound(s: string, i: nat, rs: seq<Redirection>) returns (items: seq<Item>)
    requires i <= |s| && ParseRedirs(s, i, rs).Ok?
    ensures var r := ParseRedirs(s, i, rs);
            && ItemsOk(items) && NoArgs(items) && r.value == rs + Redirs(items)
            && Terms(s, i) == ItemsTerms(items) + Terms(s, r.pos) && !Leads(Terms(s, r.pos), "<>")
    decreases |s| - i
  {
    hide Terms, ParseRedirs, Leads, ItemsTerms, Redirs;
    var n := RedirStep(s, i, rs);
    var ts := Terms(s, i);
    if !Leads(ts, "<>") {
      items := [];
      NoItems();
      assert rs + [] == rs && [] + ts == ts;
    } else {
      var x := Redirect(ts[0], ts[1].w);
      var rest := RedirsSound(s, n, rs + [Redirection(ts[1].w, ts[0] != Sym('<'))]);
      items := [x] + rest;
      ItemsCons(x, rest);
      assert ts == [ts[0], ts[1]] + ts[2..];
    }
  }

  lemma NoItems()
    ensures ItemsTerms([]) == [] && Redirs([]) == [] && Words([]) == []
  {}

  lemma {:induction false} RedirsComplete(s: string, i: nat, rs: seq<Redirection>, items: seq<Item>, rest: seq<Term>)
    returns (p: nat)
    requires i <= |s| && Terms(s, i) == ItemsTerms(items) + rest && ItemsOk(items) && NoArgs(items) &&
             !Leads(rest, "<>")
    ensures p <= |s| && ParseRedirs(s, i, rs) == Ok(rs + Redirs(items), p) && Terms(s, p) == rest
    decreases |items|
  {
    hide Terms, ParseRedirs, ItemsTerms, Redirs;
    p := RedirStep(s, i, rs);
    NoItems();
    if items == [] {
      assert rs + [] == rs && [] + rest == rest;
    } else {
      var x, ts := items[0], Terms(s, i);
      ItemsCons(x, items[1..]);
      assert [x] + items[1..] == items;
      assert ts == [x.op, Name(x.file)] + (ItemsTerms(items[1..]) + rest);
      var r := Redirection(x.file, x.op != Sym('<'));
      p := RedirsComplete(s, p, rs + [r], items[1..], rest);
      assert rs + [r] + Redirs(items[1..]) == rs + ([r] + Redirs(items[1..]));
    }
  }

  // ---- words ----

  /** One turn of the loop of `parseexec`. */
  lemma ArgStep(s: string, i: nat, args: seq<Span>, rs: seq<Redirection>) returns (n: nat)
    requires i <= |s|
    ensures n <= |s|
    ensures var ts := Terms(s, i);
            if ts == [] || Leads(ts, "|)&;") then
              ParseArgs(s, i, args, rs) == Ok(Wrap(Exec(args), rs), n) && Terms(s, n) == ts
            else if !ts[0].Name? || |args| + 1 >= MAXARGS then ParseArgs(s, i, args, rs) == Fail
            else
              && i < n && Terms(s, n) == ts[1..]
              && var r := ParseRedirs(s, n, rs);
              ParseArgs(s, i, args, rs) == if r.Fail? then Fail else ParseArgs(s, r.pos, args + [ts[0].w], r.value)
  {
    hide Terms, GetToken, Peek, Skip, Wrap, ParseRedirs;
    PeekIs(s, i, "|)&;");
    SkipSame(s, i);
    SkipBound(s, i);
    NextTerm(s, i);
    var t := GetToken(s, i);
    n := if Leads(Terms(s, i), "|)&;") then Skip(s, i) else t.next;
    if t.kind == EndOfLine { AtEndOfLine(s, i); }
  }

  lemma AtEndOfLine(s: string, i: nat)
    requires i <= |s| && GetToken(s, i).kind == EndOfLine
    ensures GetToken(s, i).next == |s| && Terms(s, |s|) == []
  {}

  lemma {:induction false} ArgsSound(s: string, i: nat, args: seq<Span>, rs: seq<Redirection>)
    returns (items: seq<Item>)
    requires i <= |s| && |args| < MAXARGS && ParseArgs(s, i, args, rs).Ok?
    ensures var r := ParseArgs(s, i, args, rs);
            && ItemsOk(items) && |args + Words(items)| < MAXARGS
            && r.value == Wrap(Exec(args + Words(items)), rs + Redirs(items))
            && Terms(s, i) == ItemsTerms(items) + Terms(s, r.pos)
    decreases |s| - i
  {
    hide Terms, ParseArgs, ParseRedirs, Wrap, ItemsTerms, Redirs, Words;
    var n := ArgStep(s, i, args, rs);
    var ts := Terms(s, i);
    if ts == [] || Leads(ts, "|)&;") {
      items := [];
      NoItems();
      assert args + [] == args && rs + [] == rs && [] + ts == ts;
    } else {
      var reds := RedirsSound(s, n, rs);
      var r := ParseRedirs(s, n, rs);
      var more := ArgsSound(s, r.pos, args + [ts[0].w], r.value);
      var x := Arg(ts[0].w);
      items := [x] + (reds + more);
      ArgThenItems(x, reds, more, args, rs);
      assert ts == [ts[0]] + ts[1..];
    }
  }

  /** A word, redirections and what follows, put together. */
  lemma ArgThenItems(x: Item, reds: seq<Item>, more: seq<Item>, args: seq<Span>, rs: seq<Redirection>)
    requires x.Arg? && ItemsOk(reds) && NoArgs(reds) && ItemsOk(more)
    ensures var items := [x] + (reds + more);
            && ItemsOk(items) && args + Words(items) == args + [x.w] + Words(more)
            && rs + Redirs(items) == rs + Redirs(reds) + Redirs(more)
            && ItemsTerms(items) == [Name(x.w)] + ItemsTerms(reds) + ItemsTerms(more)
  {
    hide ItemsTerms, Redirs, Words;
    var items := [x] + (reds + more);
    NoArgWords(reds);
    ItemsJoin(reds, more);
    ItemsCons(x, reds + more);
    assert args + Words(items) == args + [x.w] + Words(more) by {
      assert Words(items) == [x.w] + ([] + Words(more));
    }
    assert rs + Redirs(items) == rs + Redirs(reds) + Redirs(more) by {
      assert Redirs(items) == [] + (Redirs(reds) + Redirs(more));
    }
  }

  /** The redirections that `items` starts with. */
  function Front(items: seq<Item>): (n: nat)
    ensures n <= |items| && NoArgs(items[..n]) && (n < |items| ==> items[n].Arg?)
  {
    if items == [] || items[0].Arg? then 0
    else
      var n := Front(items[1..]);
      assert items[..n + 1] == [items[0]] + items[1..][..n];
      n + 1
  }

  ghost predicate Follows(rest: seq<Term>, toks: string) { rest == [] || Leads(rest, toks) }

  lemma ArgLeads(items: seq<Item>, rest: seq<Term>)
    requires (items != [] ==> items[0].Arg?) && Follows(rest, "|)&;")
    ensures var ts := ItemsTerms(items) + rest;
            && !Leads(ts, "<>") && !Leads(ts, "(")
            && (items == [] ==> ts == rest)
            && (items != [] ==> ts == [Name(items[0].w)] + (ItemsTerms(items[1..]) + rest))
  {
    hide ItemsTerms;
    NoItems();
    if items == [] {
      assert [] + rest == rest;
    } else {
      ItemsCons(items[0], items[1..]);
      assert [items[0]] + items[1..] == items;
      assert ItemsTerms(items) + rest == [Name(items[0].w)] + (ItemsTerms(items[1..]) + rest);
    }
  }

  lemma {:induction false} ArgsComplete(s: string, i: nat, args: seq<Span>, rs: seq<Redirection>, items: seq<Item>,
                                        rest: seq<Term>)
    returns (p: nat)
    requires i <= |s| && Terms(s, i) == ItemsTerms(items) + rest && ItemsOk(items) && Follows(rest, "|)&;")
    requires (items != [] ==> items[0].Arg?) && |args + Words(items)| < MAXARGS
    ensures p <= |s| && Terms(s, p) == rest
    ensures ParseArgs(s, i, args, rs) == Ok(Wrap(Exec(args + Words(items)), rs + Redirs(items)), p)
    decreases |items|
  {
    hide Terms, ParseArgs, ParseRedirs, Wrap, ItemsTerms, Redirs, Words;
    p := ArgStep(s, i, args, rs);
    ArgLeads(items, rest);
    NoItems();
    if items == [] {
      assert args + [] == args && rs + [] == rs;
    } else {
      var n := 1 + Front(items[1..]);
      var x, reds, more := items[0], items[1..n], items[n..];
      assert items == [x] + (reds + more) && items[1..] == reds + more && reds == items[1..][..n - 1];
      ArgThenItems(x, reds, more, args, rs);
      ItemsJoin(reds, more);
      assert Terms(s, p) == ItemsTerms(reds) + (ItemsTerms(more) + rest);
      ArgLeads(more, rest);
      p := RedirsComplete(s, p, rs, reds, ItemsTerms(more) + rest);
      p := ArgsComplete(s, p, args + [x.w], rs + Redirs(reds), more, rest);
    }
  }

  // ---- stages ----

  lemma SimpleSound(s: string, i: nat) returns (st: Stage)
    requires i <= |s| && !Peek(s, i, "(") && ParseExec(s, i).Ok?
    ensures var r := ParseExec(s, i);
            StageOk(st) && r.value == StageMeans(st) && Terms(s, i) == StageTerms(st) + Terms(s, r.pos)
  {
    hide Terms, Peek, ParseArgs, ParseRedirs, Wrap, ItemsTerms, Redirs, Words;
    var reds := RedirsSound(s, i, []);
    var r := ParseRedirs(s, i, []);
    var more := ArgsSound(s, r.pos, [], r.value);
    NoArgWords(reds);
    ItemsJoin(reds, more);
    WrapIsAround(Exec(Words(more)), Redirs(reds) + Redirs(more));
    st := Simple(reds + more);
    assert [] + Redirs(reds) == Redirs(reds) && [] + Words(more) == Words(more);
  }

  lemma NoArgWords(items: seq<Item>)
    requires NoArgs(items)
    ensures Words(items) == []
  {
    NoWords(items);
  }

  lemma SimpleComplete(s: string, i: nat, items: seq<Item>, rest: seq<Term>) returns (p: nat)
    requires i <= |s| && Terms(s, i) == ItemsTerms(items) + rest && ItemsOk(items) && |Words(items)| < MAXARGS
    requires Follows(rest, "|)&;")
    ensures p <= |s| && Terms(s, p) == rest
    ensures ParseExec(s, i) == Ok(Around(Exec(Words(items)), Redirs(items)), p)
  {
    hide *;
    var n := Front(items);
    var reds, more := items[..n], items[n..];
    SplitItems(items, n);
    ArgLeads(more, rest);
    assert Terms(s, i) == ItemsTerms(reds) + (ItemsTerms(more) + rest);
    RedirsLead(reds, ItemsTerms(more) + rest);
    NotBlock(s, i);
    p := RedirsComplete(s, i, [], reds, ItemsTerms(more) + rest);
    assert [] + Redirs(reds) == Redirs(reds) && [] + Words(more) == Words(more);
    p := ArgsComplete(s, p, [], Redirs(reds), more, rest);
    WrapIsAround(Exec(Words(items)), Redirs(items));
    ExecIs(s, i, Redirs(reds));
  }

  lemma SplitItems(items: seq<Item>, n: nat)
    requires n <= |items| && NoArgs(items[..n]) && ItemsOk(items)
    ensures ItemsOk(items[..n]) && ItemsOk(items[n..])
    ensures ItemsTerms(items) == ItemsTerms(items[..n]) + ItemsTerms(items[n..])
    ensures Words(items) == Words(items[n..]) && Redirs(items) == Redirs(items[..n]) + Redirs(items[n..])
  {
    hide ItemsTerms, Words, Redirs;
    assert items == items[..n] + items[n..];
    ItemsJoin(items[..n], items[n..]);
    NoArgWords(items[..n]);
    assert [] + Words(items[n..]) == Words(items[n..]);
  }

  lemma NotBlock(s: string, i: nat)
    requires i <= |s| && !Leads(Terms(s, i), "(")
    ensures !Peek(s, i, "(")
  {
    hide Terms;
    PeekIs(s, i, "(");
  }

  lemma ExecIs(s: string, i: nat, rs: seq<Redirection>)
    requires i <= |s| && !Peek(s, i, "(") && ParseRedirs(s, i, []).Ok? && ParseRedirs(s, i, []).value == rs
    ensures ParseExec(s, i) == ParseArgs(s, ParseRedirs(s, i, []).pos, [], rs)
  {
    hide Peek, ParseRedirs, ParseArgs;
  }

  lemma RedirsLead(items: seq<Item>, rest: seq<Term>)
    requires NoArgs(items) && ItemsOk(items) && !Leads(rest, "(")
    ensures !Leads(ItemsTerms(items) + rest, "(")
  {
    if items == [] { assert [] + rest == rest; }
  }

  // ---- lines ----

  lemma {:induction false} BacksOuter(c: Cmd, n: nat)
    ensures Backs(Back(c), n) == Backs(c, n + 1)
  {
    if n > 0 { BacksOuter(c, n - 1); }
  }

  lemma {:induction false} BacksSound(s: string, i: nat, c: Cmd) returns (n: nat)
    requires i <= |s|
    ensures var r := ParseBacks(s, i, c); r.0 == Backs(c, n) && Terms(s, i) == Ands(n) + Terms(s, r.1)
    decreases |s| - i
  {
    hide Terms, Peek, GetToken, Skip;
    PeekIs(s, i, "&");
    NextTerm(s, i);
    SkipSame(s, i);
    if Peek(s, i, "&") {
      var m := BacksSound(s, GetToken(s, i).next, Back(c));
      BacksOuter(c, m);
      n := m + 1;
    } else {
      n := 0;
    }
  }

  lemma {:induction false} BacksComplete(s: string, i: nat, c: Cmd, n: nat, rest: seq<Term>)
    requires i <= |s| && Terms(s, i) == Ands(n) + rest && !Leads(rest, "&")
    ensures ParseBacks(s, i, c).0 == Backs(c, n) && Terms(s, ParseBacks(s, i, c).1) == rest
    decreases n
  {
    hide Terms, Peek, GetToken, Skip;
    PeekIs(s, i, "&");
    SkipSame(s, i);
    if n > 0 {
      assert Terms(s, i) == [Sym('&')] + (Ands(n - 1) + rest);
      Past(s, i, Sym('&'), Ands(n - 1) + rest);
      BacksComplete(s, GetToken(s, i).next, Back(c), n - 1, rest);
      BacksOuter(c, n - 1);
    } else {
      assert Ands(n) + rest == rest;
    }
  }

  lemma {:induction false} StageSound(s: string, i: nat) returns (st: Stage)
    requires i <= |s| && ParseExec(s, i).Ok?
    ensures var r := ParseExec(s, i);
            StageOk(st) && r.value == StageMeans(st) && Terms(s, i) == StageTerms(st) + Terms(s, r.pos)
    decreases |s| - i, 0
  {
    hide Terms, Peek, GetToken, Skip, ParseLine, ParseRedirs, ParseArgs, Wrap, Around, ItemsTerms, Redirs, LineTerms,
      LineMeans, LineOk;
    PeekIs(s, i, "(");
    if !Peek(s, i, "(") {
      st := SimpleSound(s, i);
    } else {
      NextTerm(s, i);
      var n := GetToken(s, i).next;
      var l := LineSound(s, n);
      var c := ParseLine(s, n);
      PeekIs(s, c.pos, ")");
      NextTerm(s, c.pos);
      var m := GetToken(s, c.pos).next;
      var reds := RedirsSound(s, m, []);
      WrapIsAround(c.value, Redirs(reds));
      st := Group(l, reds);
      assert [] + Redirs(reds) == Redirs(reds);
    }
  }

  lemma {:induction false} PipelineSound(s: string, i: nat) returns (p: Pipeline)
    requires i <= |s| && ParsePipe(s, i).Ok?
    ensures var r := ParsePipe(s, i);
            PipelineOk(p) && r.value == PipelineMeans(p) && Terms(s, i) == PipelineTerms(p) + Terms(s, r.pos)
    decreases |s| - i, 1
  {
    hide Terms, Peek, GetToken, Skip, ParseExec, StageTerms, StageMeans, StageOk;
    var st := StageSound(s, i);
    var c := ParseExec(s, i);
    PeekIs(s, c.pos, "|");
    NextTerm(s, c.pos);
    SkipSame(s, c.pos);
    if Peek(s, c.pos, "|") {
      var rest := PipelineSound(s, GetToken(s, c.pos).next);
      p := Into(st, rest);
    } else {
      p := Only(st);
    }
  }

  lemma {:induction false} LineSound(s: string, i: nat) returns (l: Line)
    requires i <= |s| && ParseLine(s, i).Ok?
    ensures var r := ParseLine(s, i);
            LineOk(l) && r.value == LineMeans(l) && Terms(s, i) == LineTerms(l) + Terms(s, r.pos)
    decreases |s| - i, 2
  {
    hide Terms, Peek, GetToken, Skip, ParsePipe, ParseBacks, PipelineTerms, PipelineMeans, PipelineOk, Backs, Ands;
    var p := PipelineSound(s, i);
    var c := ParsePipe(s, i);
    var n := BacksSound(s, c.pos, c.value);
    var b := ParseBacks(s, c.pos, c.value);
    PeekIs(s, b.1, ";");
    NextTerm(s, b.1);
    SkipSame(s, b.1);
    if Peek(s, b.1, ";") {
      var rest := LineSound(s, GetToken(s, b.1).next);
      l := Then(Job(p, n), rest);
    } else {
      l := Last(Job(p, n));
    }
  }

  lemma {:induction false} StageComplete(s: string, i: nat, st: Stage, rest: seq<Term>) returns (p: nat)
    requires i <= |s| && StageOk(st) && Terms(s, i) == StageTerms(st) + rest && Follows(rest, "|)&;")
    ensures p <= |s| && ParseExec(s, i) == Ok(StageMeans(st), p) && Terms(s, p) == rest
    decreases st
  {
    hide Terms, Peek, GetToken, Skip, ParseLine, ParseRedirs, ParseArgs, Wrap, Around, ItemsTerms, Redirs, LineTerms,
      LineMeans, LineOk, Words;
    match st
    case Simple(items) => p := SimpleComplete(s, i, items, rest);
    case Group(l, rs) =>
      var close := [Sym(')')] + (ItemsTerms(rs) + rest);
      assert Terms(s, i) == [Sym('(')] + (LineTerms(l) + close);
      PeekIs(s, i, "(");
      Past(s, i, Sym('('), LineTerms(l) + close);
      var n := LineComplete(s, GetToken(s, i).next, l, close);
      PeekIs(s, n, ")");
      Past(s, n, Sym(')'), ItemsTerms(rs) + rest);
      p := RedirsComplete(s, GetToken(s, n).next, [], rs, rest);
      WrapIsAround(LineMeans(l), Redirs(rs));
      assert [] + Redirs(rs) == Redirs(rs);
  }

  lemma {:induction false} PipelineComplete(s: string, i: nat, pl: Pipeline, rest: seq<Term>) returns (p: nat)
    requires i <= |s| && PipelineOk(pl) && Terms(s, i) == PipelineTerms(pl) + rest && Follows(rest, ")&;")
    ensures p <= |s| && ParsePipe(s, i) == Ok(PipelineMeans(pl), p) && Terms(s, p) == rest
    decreases pl
  {
    hide Terms, Peek, GetToken, Skip, ParseExec, StageTerms, StageMeans, StageOk;
    match pl
    case Only(st) =>
      var n := StageComplete(s, i, st, rest);
      PeekIs(s, n, "|");
      SkipSame(s, n);
      SkipBound(s, n);
      p := Skip(s, n);
    case Into(st, more) =>
      var tail := [Sym('|')] + (PipelineTerms(more) + rest);
      assert Terms(s, i) == StageTerms(st) + tail;
      var n := StageComplete(s, i, st, tail);
      PeekIs(s, n, "|");
      Past(s, n, Sym('|'), PipelineTerms(more) + rest);
      p := PipelineComplete(s, GetToken(s, n).next, more, rest);
  }

  lemma {:induction false} LineComplete(s: string, i: nat, l: Line, rest: seq<Term>) returns (p: nat)
    requires i <= |s| && LineOk(l) && Terms(s, i) == LineTerms(l) + rest && Follows(rest, ")")
    ensures p <= |s| && ParseLine(s, i) == Ok(LineMeans(l), p) && Terms(s, p) == rest
    decreases l
  {
    hide Terms, Peek, GetToken, Skip, ParsePipe, ParseBacks, PipelineTerms, PipelineMeans, PipelineOk, Backs, Ands;
    var j := l.job;
    var tail := if l.Last? then rest else [Sym(';')] + (LineTerms(l.rest) + rest);
    assert Terms(s, i) == PipelineTerms(j.pipe) + (Ands(j.backs) + tail);
    AndsLead(j.backs, tail);
    var n := PipelineComplete(s, i, j.pipe, Ands(j.backs) + tail);
    var c := PipelineMeans(j.pipe);
    BacksComplete(s, n, c, j.backs, tail);
    var m := ParseBacks(s, n, c).1;
    PeekIs(s, m, ";");
    SkipSame(s, m);
    SkipBound(s, m);
    if l.Last? {
      p := Skip(s, m);
    } else {
      Past(s, m, Sym(';'), LineTerms(l.rest) + rest);
      p := LineComplete(s, GetToken(s, m).next, l.rest, rest);
    }
  }

  lemma AndsLead(n: nat, rest: seq<Term>)
    requires Follows(rest, ");")
    ensures Follows(Ands(n) + rest, ")&;") && !Leads(rest, "&")
  {
    if n == 0 { assert Ands(n) + rest == rest; }
  }

  // ---- the whole line ----

  /** The tokens of the line are a sentence that means `c`. */
  ghost predicate IsCommand(s: string, c: Cmd) {
    exists l: Line, ps: seq<Piece> ::
      IsLexed(s, 0, ps) && LineOk(l) && TermsOf(ps) == LineTerms(l) && LineMeans(l) == c
  }

  /** `parsecmd` returns a command exactly if the line is a sentence that means it; any other line is a syntax
      error. */
  lemma ParsesExactly(s: string, c: Cmd)
    ensures ParseCmd(s) == Ok(c, |s|) <==> IsCommand(s, c)
  {
    hide Pieces, ParseLine, LineTerms, LineMeans, LineOk, IsLexed, Skip;
    LexIsUnique(s, 0, Pieces(s, 0));
    if ParseCmd(s) == Ok(c, |s|) {
      var l := LineSound(s, 0);
      EndsBlank(s, ParseLine(s, 0).pos);
      assert LineTerms(l) + [] == LineTerms(l);
    }
    if IsCommand(s, c) {
      var l: Line, ps: seq<Piece> :| IsLexed(s, 0, ps) && LineOk(l) && TermsOf(ps) == LineTerms(l) && LineMeans(l) == c;
      LexIsUnique(s, 0, ps);
      assert LineTerms(l) + [] == LineTerms(l);
      var p := LineComplete(s, 0, l, []);
      EndsBlank(s, p);
    }
  }

  /** So a line means one command at most. */
  lemma MeansOne(s: string, c: Cmd, d: Cmd)
    requires IsCommand(s, c) && IsCommand(s, d)
    ensures c == d
  {
    ParsesExactly(s, c);
    ParsesExactly(s, d);
  }
}
