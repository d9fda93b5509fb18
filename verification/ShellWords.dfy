/** Writing the NULs that end the words into the line does not touch a word. */
module ShellWords {
  import opened Shell

  function ToSet(args: seq<Span>): set<Span> { set w | w in args }

  /** Every word and file name of a command. */
  function Spans(c: Cmd): set<Span> {
    match c
    case Exec(args) => ToSet(args)
    case Redir(d, r) => Spans(d) + {r.file}
    case Pipe(l, r) => Spans(l) + Spans(r)
    case List(l, r) => Spans(l) + Spans(r)
    case Back(d) => Spans(d)
  }

  /** The span is a whole word of the line. */
  ghost predicate Proper(s: string, w: Span) {
    && w.q < w.eq <= |s| && (forall k :: w.q <= k < w.eq ==> IsWordChar(s[k]))
    && (w.eq < |s| ==> !IsWordChar(s[w.eq]))
  }

  ghost predicate AllProper(s: string, ws: set<Span>) { forall w :: w in ws ==> Proper(s, w) }

  lemma TokenProper(s: string, i: nat)
    requires i <= |s| && GetToken(s, i).kind == Word
    ensures Proper(s, Span(GetToken(s, i).q, GetToken(s, i).eq))
  {}

  ghost predicate RedirsProper(s: string, rs: seq<Redirection>) { forall r :: r in rs ==> Proper(s, r.file) }

  lemma {:induction false} WrapProper(s: string, c: Cmd, rs: seq<Redirection>)
    requires AllProper(s, Spans(c)) && RedirsProper(s, rs)
    ensures AllProper(s, Spans(Wrap(c, rs)))
    decreases |rs|
  {
    if rs != [] { WrapProper(s, c, rs[..|rs| - 1]); }
  }

  lemma {:induction false} RedirsParseProper(s: string, i: nat, rs: seq<Redirection>)
    requires i <= |s| && RedirsProper(s, rs)
    ensures ParseRedirs(s, i, rs).Ok? ==> RedirsProper(s, ParseRedirs(s, i, rs).value)
    decreases |s| - i
  {
    if Peek(s, i, "<>") {
      var t := GetToken(s, i);
      var f := GetToken(s, t.next);
      if f.kind == Word {
        TokenProper(s, t.next);
        RedirsParseProper(s, f.next, rs + [Redirection(Span(f.q, f.eq), t.kind != Symbol('<'))]);
      }
    }
  }

  lemma {:induction false} ArgsParseProper(s: string, i: nat, args: seq<Span>, rs: seq<Redirection>)
    requires i <= |s| && RedirsProper(s, rs) && forall w :: w in args ==> Proper(s, w)
    ensures ParseArgs(s, i, args, rs).Ok? ==> AllProper(s, Spans(ParseArgs(s, i, args, rs).value))
    decreases |s| - i
  {
    WrapProper(s, Exec(args), rs);
    if !Peek(s, i, "|)&;") {
      var t := GetToken(s, i);
      if t.kind == Word {
        TokenProper(s, i);
        RedirsParseProper(s, t.next, rs);
        var r := ParseRedirs(s, t.next, rs);
        if r.Ok? { ArgsParseProper(s, r.pos, args + [Span(t.q, t.eq)], r.value); }
      }
    }
  }

  lemma {:induction false} BlockParseProper(s: string, i: nat)
    requires i <= |s| && Peek(s, i, "(")
    ensures ParseBlock(s, i).Ok? ==> AllProper(s, Spans(ParseBlock(s, i).value))
    decreases |s| - i, 0
  {
    var next := GetToken(s, i).next;
    LineParseProper(s, next);
    var c := ParseLine(s, next);
    if c.Ok? && Peek(s, c.pos, ")") {
      var k := GetToken(s, c.pos).next;
      RedirsParseProper(s, k, []);
      var r := ParseRedirs(s, k, []);
      if r.Ok? { WrapProper(s, c.value, r.value); }
    }
  }

  lemma {:induction false} ExecParseProper(s: string, i: nat)
    requires i <= |s|
    ensures ParseExec(s, i).Ok? ==> AllProper(s, Spans(ParseExec(s, i).value))
    decreases |s| - i, 1
  {
    if Peek(s, i, "(") {
      BlockParseProper(s, i);
    } else {
      RedirsParseProper(s, i, []);
      var r := ParseRedirs(s, i, []);
      if r.Ok? { ArgsParseProper(s, r.pos, [], r.value); }
    }
  }

  lemma {:induction false} PipeParseProper(s: string, i: nat)
    requires i <= |s|
    ensures ParsePipe(s, i).Ok? ==> AllProper(s, Spans(ParsePipe(s, i).value))
    decreases |s| - i, 2
  {
    ExecParseProper(s, i);
    var c := ParseExec(s, i);
    if c.Ok? && Peek(s, c.pos, "|") { PipeParseProper(s, GetToken(s, c.pos).next); }
  }

  lemma {:induction false} BacksProper(s: string, i: nat, c: Cmd)
    requires i <= |s| && AllProper(s, Spans(c))
    ensures AllProper(s, Spans(ParseBacks(s, i, c).0))
    decreases |s| - i
  {
    if Peek(s, i, "&") { BacksProper(s, GetToken(s, i).next, Back(c)); }
  }

  lemma {:induction false} LineParseProper(s: string, i: nat)
    requires i <= |s|
    ensures ParseLine(s, i).Ok? ==> AllProper(s, Spans(ParseLine(s, i).value))
    decreases |s| - i, 3
  {
    PipeParseProper(s, i);
    var c := ParsePipe(s, i);
    if c.Ok? {
      BacksProper(s, c.pos, c.value);
      var b := ParseBacks(s, c.pos, c.value);
      if Peek(s, b.1, ";") { LineParseProper(s, GetToken(s, b.1).next); }
    }
  }

  predicate EndsAt(ws: set<Span>, k: nat) { exists w :: w in ws && w.eq == k }

  /** `nulterminate`, on a line with room for its final NUL: exactly the ends of words are overwritten. */
  method NulTerminate(buf: array<char>, c: Cmd)
    requires forall w :: w in Spans(c) ==> w.eq < buf.Length
    modifies buf
    ensures forall k :: 0 <= k < buf.Length ==> buf[k] == if EndsAt(Spans(c), k) then '\0' else old(buf[k])
    decreases c
  {
    match c {
      case Exec(args) =>
        var i := 0;
        while i < |args|
          invariant 0 <= i <= |args|
          invariant forall k :: 0 <= k < buf.Length ==>
                      buf[k] == if EndsAt(ToSet(args[..i]), k) then '\0' else old(buf[k])
        {
          assert args[i] in Spans(c);
          assert ToSet(args[..i + 1]) == ToSet(args[..i]) + {args[i]};
          buf[args[i].eq] := '\0';
          i := i + 1;
        }
        assert args[..i] == args;
      case Redir(d, r) =>
        NulTerminate(buf, d);
        buf[r.file.eq] := '\0';
      case Pipe(l, r) =>
        NulTerminate(buf, l);
        NulTerminate(buf, r);
      case List(l, r) =>
        NulTerminate(buf, l);
        NulTerminate(buf, r);
      case Back(d) =>
        NulTerminate(buf, d);
    }
  }

  /** After the NULs are in, every word of a parsed command is what it was, and ends in a NUL. */
  lemma WordsSurvive(s: string, c: Cmd, was: seq<char>, now: seq<char>, w: Span)
    requires ParseCmd(s) == Ok(c, |s|) && was == s + ['\0'] && |now| == |was| && w in Spans(c)
    requires forall k :: 0 <= k < |was| ==> now[k] == if EndsAt(Spans(c), k) then '\0' else was[k]
    ensures w.q < w.eq <= |s| && now[w.q..w.eq] == s[w.q..w.eq] && now[w.eq] == '\0'
  {
    LineParseProper(s, 0);
    assert Proper(s, w);
    assert forall k :: w.q <= k < w.eq ==> !EndsAt(Spans(c), k);
    assert EndsAt(Spans(c), w.eq);
  }
}
