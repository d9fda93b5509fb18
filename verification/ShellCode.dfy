/** The parser as it runs: a pointer into the line that `gettoken` and `peek` move, loops where the code has
    them, and at the end NULs written into the line in place. */
module ShellCode {
  import opened Shell
  import opened ShellParses

  lemma SkipTwice(s: string, i: nat, toks: string)
    requires i <= |s|
    ensures Skip(s, Skip(s, i)) == Skip(s, i) && Peek(s, Skip(s, i), toks) == Peek(s, i, toks) &&
            GetToken(s, Skip(s, i)) == GetToken(s, i)
  {}

  /** `s` is the line and `ps` the pointer.  A method that fails stands for a panic. */
  class Parser {
    const s: string
    var ps: nat

    constructor (line: string)
      ensures s == line && ps == 0
    {
      s, ps := line, 0;
    }

    method SkipSpace()
      requires ps <= |s|
      modifies this
      ensures ps == Skip(s, old(ps))
    {
      while ps < |s| && IsSpace(s[ps])
        invariant old(ps) <= ps <= |s| && Skip(s, ps) == Skip(s, old(ps))
      {
        ps := ps + 1;
      }
    }

    method PeekAt(toks: string) returns (b: bool)
      requires ps <= |s|
      modifies this
      ensures ps == Skip(s, old(ps)) && b == Peek(s, old(ps), toks)
    {
      SkipSpace();
      b := ps < |s| && s[ps] in toks;
    }

    method NextToken() returns (t: Token)
      requires ps <= |s|
      modifies this
      ensures t == GetToken(s, old(ps)) && ps == t.next
    {
      SkipSpace();
      var q := ps;
      var kind := EndOfLine;
      if ps < |s| {
        if s[ps] == '>' {
          kind, ps := Symbol('>'), ps + 1;
          if ps < |s| && s[ps] == '>' { kind, ps := Append, ps + 1; }
        } else if IsSymbol(s[ps]) {
          kind, ps := Symbol(s[ps]), ps + 1;
        } else {
          kind := Word;
          while ps < |s| && !IsSpace(s[ps]) && !IsSymbol(s[ps])
            invariant q <= ps <= |s| && WordEnd(s, ps) == WordEnd(s, q)
          {
            ps := ps + 1;
          }
        }
      }
      var eq := ps;
      SkipSpace();
      t := Token(kind, q, eq, ps);
    }

    method Redirs(rs0: seq<Redirection>) returns (ok: bool, rs: seq<Redirection>)
      requires ps <= |s|
      modifies this
      ensures ParseRedirs(s, old(ps), rs0) == if ok then Ok(rs, ps) else Fail
      ensures ok ==> old(ps) <= ps <= |s|
    {
      rs := rs0;
      ghost var i := ps;
      SkipTwice(s, ps, "<>");
      var more := PeekAt("<>");
      while more
        invariant i <= ps <= |s| && old(ps) <= i && ps == Skip(s, i) && more == Peek(s, i, "<>")
        invariant ParseRedirs(s, i, rs) == ParseRedirs(s, old(ps), rs0)
        decreases |s| - ps
      {
        SkipTwice(s, i, "<>");
        var t := NextToken();
        var f := NextToken();
        if f.kind != Word { return false, rs; }
        rs := rs + [Redirection(Span(f.q, f.eq), t.kind != Symbol('<'))];
        i := ps;
        SkipTwice(s, ps, "<>");
        more := PeekAt("<>");
      }
      ok := true;
    }

    method Args(rs0: seq<Redirection>) returns (ok: bool, c: Cmd)
      requires ps <= |s|
      modifies this
      ensures ParseArgs(s, old(ps), [], rs0) == if ok then Ok(c, ps) else Fail
      ensures ok ==> old(ps) <= ps <= |s|
    {
      var args: seq<Span>, rs := [], rs0;
      c := Exec([]);
      ghost var i := ps;
      SkipTwice(s, ps, "|)&;");
      var stop := PeekAt("|)&;");
      while !stop
        invariant i <= ps <= |s| && old(ps) <= i && ps == Skip(s, i) && stop == Peek(s, i, "|)&;")
        invariant ParseArgs(s, i, args, rs) == ParseArgs(s, old(ps), [], rs0)
        decreases |s| - i
      {
        SkipTwice(s, i, "|)&;");
        var t := NextToken();
        if t.kind == EndOfLine { break; }
        if t.kind != Word { return false, c; }
        args := args + [Span(t.q, t.eq)];
        if |args| >= MAXARGS { return false, c; }
        ok, rs := Redirs(rs);
        if !ok { return; }
        i := ps;
        SkipTwice(s, ps, "|)&;");
        stop := PeekAt("|)&;");
      }
      ok, c := true, Wrap(Exec(args), rs);
    }

    /** After its caller has seen the parenthesis. */
    method BlockCmd() returns (ok: bool, c: Cmd)
      requires ps <= |s| && Peek(s, ps, "(")
      modifies this
      ensures ParseBlock(s, old(ps)) == if ok then Ok(c, ps) else Fail
      ensures ok ==> old(ps) <= ps <= |s|
      decreases |s| - ps, 0
    {
      var t := NextToken();
      ok, c := LineCmd();
      if !ok { return; }
      SkipTwice(s, ps, ")");
      ok := PeekAt(")");
      if !ok { return; }
      t := NextToken();
      var rs;
      ok, rs := Redirs([]);
      if !ok { return; }
      c := Wrap(c, rs);
    }

    method ExecCmd() returns (ok: bool, c: Cmd)
      requires ps <= |s|
      modifies this
      ensures ParseExec(s, old(ps)) == if ok then Ok(c, ps) else Fail
      ensures ok ==> old(ps) <= ps <= |s|
      decreases |s| - ps, 1
    {
      SkipTwice(s, ps, "(");
      var block := PeekAt("(");
      if block {
        BlockSkips(s, old(ps));
        ok, c := BlockCmd();
        return;
      }
      RedirsSkip(s, old(ps), []);
      var rs;
      ok, rs := Redirs([]);
      c := Exec([]);
      if !ok { return; }
      ok, c := Args(rs);
    }

    method PipeCmd() returns (ok: bool, c: Cmd)
      requires ps <= |s|
      modifies this
      ensures ParsePipe(s, old(ps)) == if ok then Ok(c, ps) else Fail
      ensures ok ==> old(ps) <= ps <= |s|
      decreases |s| - ps, 2
    {
      ok, c := ExecCmd();
      if !ok { return; }
      SkipTwice(s, ps, "|");
      var more := PeekAt("|");
      if more {
        var t := NextToken();
        var d;
        ok, d := PipeCmd();
        c := Pipe(c, d);
      }
    }

    method LineCmd() returns (ok: bool, c: Cmd)
      requires ps <= |s|
      modifies this
      ensures ParseLine(s, old(ps)) == if ok then Ok(c, ps) else Fail
      ensures ok ==> old(ps) <= ps <= |s|
      decreases |s| - ps, 3
    {
      ok, c := PipeCmd();
      if !ok { return; }
      ghost var i, b := ps, ParseBacks(s, ps, c);
      SkipTwice(s, ps, "&");
      var more := PeekAt("&");
      while more
        invariant old(ps) <= i <= ps <= |s| && ps == Skip(s, i) && more == Peek(s, i, "&") && ParseBacks(s, i, c) == b
        decreases |s| - ps
      {
        SkipTwice(s, i, "&");
        var t := NextToken();
        c := Back(c);
        i := ps;
        SkipTwice(s, ps, "&");
        more := PeekAt("&");
      }
      SkipTwice(s, ps, ";");
      more := PeekAt(";");
      if more {
        var t := NextToken();
        var d;
        ok, d := LineCmd();
        c := List(c, d);
      }
    }

    /** `parsecmd`, up to the NULs: the command that the line means, or a syntax panic if it means none. */
    method Command() returns (ok: bool, c: Cmd)
      requires ps == 0
      modifies this
      ensures ParseCmd(s) == if ok then Ok(c, |s|) else Fail
      ensures ok ==> IsCommand(s, c)
      ensures !ok ==> forall d :: !IsCommand(s, d)
    {
      forall d
        ensures ParseCmd(s) == Ok(d, |s|) <==> IsCommand(s, d)
      {
        ParsesExactly(s, d);
      }
      ok, c := LineCmd();
      if !ok { return; }
      SkipSpace();
      ok := ps == |s|;
    }
  }

  lemma BlockSkips(s: string, i: nat)
    requires i <= |s| && Peek(s, i, "(")
    ensures Peek(s, Skip(s, i), "(") && ParseBlock(s, Skip(s, i)) == ParseBlock(s, i)
  {
    SkipTwice(s, i, "(");
  }

  lemma RedirsSkip(s: string, i: nat, rs: seq<Redirection>)
    requires i <= |s|
    ensures ParseRedirs(s, Skip(s, i), rs) == ParseRedirs(s, i, rs)
  {
    SkipTwice(s, i, "<>");
  }
}
