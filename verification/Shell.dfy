/** The shell's parser.  A line is a string without NUL; a word of a command is a span of it. */
module Shell {
  const MAXARGS: nat := 10

  predicate IsSpace(c: char) { c == ' ' || c == '\t' || c == '\r' || c == '\n' || c == '\U{0B}' }
  predicate IsSymbol(c: char) { c == '<' || c == '|' || c == '>' || c == '&' || c == ';' || c == '(' || c == ')' }
  predicate IsWordChar(c: char) { !IsSpace(c) && !IsSymbol(c) }

  datatype Span = Span(q: nat, eq: nat)

  datatype Redirection = Redirection(file: Span, out: bool)

  datatype Cmd = Exec(args: seq<Span>) | Redir(cmd: Cmd, r: Redirection) | Pipe(left: Cmd, right: Cmd)
               | List(left: Cmd, right: Cmd) | Back(cmd: Cmd)

  // ---- tokens ----

  datatype Kind = EndOfLine | Symbol(c: char) | Append | Word

  datatype Token = Token(kind: Kind, q: nat, eq: nat, next: nat)

  /** Past the white space from `i` on. */
  function Skip(s: string, i: nat): (j: nat)
    requires i <= |s|
    ensures i <= j <= |s| && (j < |s| ==> !IsSpace(s[j])) && forall k :: i <= k < j ==> IsSpace(s[k])
    decreases |s| - i
  {
    if i < |s| && IsSpace(s[i]) then Skip(s, i + 1) else i
  }

  /** The end of the word that starts at `i`. */
  function WordEnd(s: string, i: nat): (j: nat)
    requires i <= |s|
    ensures i <= j <= |s| && (j < |s| ==> !IsWordChar(s[j])) && forall k :: i <= k < j ==> IsWordChar(s[k])
    decreases |s| - i
  {
    if i < |s| && IsWordChar(s[i]) then WordEnd(s, i + 1) else i
  }

  /** `gettoken`: a token from `i` on, its span, and where the rest of the line starts. */
  function GetToken(s: string, i: nat): (t: Token)
    requires i <= |s|
    ensures i <= t.q <= t.eq <= t.next <= |s|
    ensures t.kind == EndOfLine <==> t.q == |s|
    ensures t.kind != EndOfLine ==> t.q < t.eq
  {
    var q := Skip(s, i);
    if q == |s| then Token(EndOfLine, q, q, q)
    else if s[q] == '>' then
      if q + 1 < |s| &&
         s[q + 1] == '>' then Token(Append, q, q + 2, Skip(s, q + 2)) else Token(Symbol('>'), q, q + 1, Skip(s, q + 1))
    else if IsSymbol(s[q]) then Token(Symbol(s[q]), q, q + 1, Skip(s, q + 1))
    else
      var e := WordEnd(s, q);
      Token(Word, q, e, Skip(s, e))
  }

  /** `peek`: whether the next token starts with one of `toks`. */
  predicate Peek(s: string, i: nat, toks: string)
    requires i <= |s|
  {
    Skip(s, i) < |s| && s[Skip(s, i)] in toks
  }

  // ---- the grammar ----

  datatype Result<T> = Ok(value: T, pos: nat) | Fail

  /** Redirections around a command, the first one innermost. */
  function Wrap(c: Cmd, rs: seq<Redirection>): Cmd
    decreases |rs|
  {
    if rs == [] then c else Redir(Wrap(c, rs[..|rs| - 1]), rs[|rs| - 1])
  }

  /** `parseredirs`, after the redirections `rs`. */
  function ParseRedirs(s: string, i: nat, rs: seq<Redirection>): (r: Result<seq<Redirection>>)
    requires i <= |s|
    ensures r.Ok? ==> i <= r.pos <= |s|
    decreases |s| - i
  {
    if !Peek(s, i, "<>") then Ok(rs, Skip(s, i))
    else
      var t := GetToken(s, i);
      var f := GetToken(s, t.next);
      if f.kind != Word then Fail
      else ParseRedirs(s, f.next, rs + [Redirection(Span(f.q, f.eq), t.kind != Symbol('<'))])
  }

  /** The loop of `parseexec`, after the words `args` and the redirections `rs`. */
  function ParseArgs(s: string, i: nat, args: seq<Span>, rs: seq<Redirection>): (r: Result<Cmd>)
    requires i <= |s|
    ensures r.Ok? ==> i <= r.pos <= |s|
    decreases |s| - i
  {
    if Peek(s, i, "|)&;") then Ok(Wrap(Exec(args), rs), Skip(s, i))
    else
      var t := GetToken(s, i);
      if t.kind == EndOfLine then Ok(Wrap(Exec(args), rs), t.next)
      else if t.kind != Word || |args| + 1 >= MAXARGS then Fail
      else
        var r := ParseRedirs(s, t.next, rs);
        if r.Fail? then Fail else ParseArgs(s, r.pos, args + [Span(t.q, t.eq)], r.value)
  }

  function ParseBlock(s: string, i: nat): (r: Result<Cmd>)
    requires i <= |s| && Peek(s, i, "(")
    ensures r.Ok? ==> i <= r.pos <= |s|
    decreases |s| - i, 0
  {
    var c := ParseLine(s, GetToken(s, i).next);
    if c.Fail? || !Peek(s, c.pos, ")") then Fail
    else
      var r := ParseRedirs(s, GetToken(s, c.pos).next, []);
      if r.Fail? then Fail else Ok(Wrap(c.value, r.value), r.pos)
  }

  function ParseExec(s: string, i: nat): (r: Result<Cmd>)
    requires i <= |s|
    ensures r.Ok? ==> i <= r.pos <= |s|
    decreases |s| - i, 1
  {
    if Peek(s, i, "(") then ParseBlock(s, i)
    else
      var r := ParseRedirs(s, i, []);
      if r.Fail? then Fail else ParseArgs(s, r.pos, [], r.value)
  }

  function ParsePipe(s: string, i: nat): (r: Result<Cmd>)
    requires i <= |s|
    ensures r.Ok? ==> i <= r.pos <= |s|
    decreases |s| - i, 2
  {
    var c := ParseExec(s, i);
    if c.Fail? then Fail
    else if !Peek(s, c.pos, "|") then Ok(c.value, Skip(s, c.pos))
    else
      var d := ParsePipe(s, GetToken(s, c.pos).next);
      if d.Fail? then Fail else Ok(Pipe(c.value, d.value), d.pos)
  }

  /** The loop of `parseline`. */
  function ParseBacks(s: string, i: nat, c: Cmd): (r: (Cmd, nat))
    requires i <= |s|
    ensures i <= r.1 <= |s|
    decreases |s| - i
  {
    if !Peek(s, i, "&") then (c, Skip(s, i)) else ParseBacks(s, GetToken(s, i).next, Back(c))
  }

  function ParseLine(s: string, i: nat): (r: Result<Cmd>)
    requires i <= |s|
    ensures r.Ok? ==> i <= r.pos <= |s|
    decreases |s| - i, 3
  {
    var c := ParsePipe(s, i);
    if c.Fail? then Fail
    else
      var b := ParseBacks(s, c.pos, c.value);
      if !Peek(s, b.1, ";") then Ok(b.0, Skip(s, b.1))
      else
        var d := ParseLine(s, GetToken(s, b.1).next);
        if d.Fail? then Fail else Ok(List(b.0, d.value), d.pos)
  }

  /** `parsecmd`: a failure is a syntax panic, or leftovers. */
  function ParseCmd(s: string): Result<Cmd> {
    var r := ParseLine(s, 0);
    if r.Fail? || Skip(s, r.pos) != |s| then Fail else Ok(r.value, |s|)
  }
}
