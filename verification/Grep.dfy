/** The matcher of `grep`, against the language of a pattern.  Strings end where the C strings have their NUL. */
module Grep {
  // ---- the words of a pattern, on the string ----

  predicate Accepts(c: char, x: char) { c == '.' || c == x }

  /** A * says how often the character before it may occur, unless it is the first or that character is such a * too. */
  predicate IsStar(re: string, k: nat)
    requires k < |re|
  {
    re[k] == '*' && k > 0 && !IsStar(re, k - 1)
  }

  /** A $ stands for the end of the text only at the end of the pattern. */
  predicate IsAnchor(re: string, k: nat)
    requires k < |re|
  {
    re[k] == '$' && k + 1 == |re|
  }

  predicate EndsAnchored(re: string) { re != "" && IsAnchor(re, |re| - 1) }

  /** The characters of the pattern take the parts of `w` between the cuts: an operator none, a starred character any
      number that it accepts, any other character one. */
  ghost predicate Takes(re: string, w: string, cuts: seq<nat>, k: nat)
    requires k < |re| && |cuts| == |re| + 1
  {
    && cuts[k] <= cuts[k + 1] <= |w|
    && if IsStar(re, k) || IsAnchor(re, k) then cuts[k + 1] == cuts[k]
    else
      && (forall x :: cuts[k] <= x < cuts[k + 1] ==> Accepts(re[k], w[x]))
      && ((k + 1 < |re| && IsStar(re, k + 1)) || cuts[k + 1] == cuts[k] + 1)
  }

  ghost predicate Divides(re: string, w: string, cuts: seq<nat>) {
    && |cuts| == |re| + 1 && cuts[0] == 0 && cuts[|re|] == |w|
    && forall k: nat :: k < |re| ==> Takes(re, w, cuts, k)
  }

  /** The words of a pattern. */
  ghost predicate IsWordOf(re: string, w: string) { exists cuts: seq<nat> :: Divides(re, w, cuts) }

  // ---- patterns as the matcher takes them apart ----

  /** A pattern, after a leading ^ has been taken off. */
  datatype Pattern = Nothing | End | One(c: char, rest: Pattern) | Star(c: char, rest: Pattern)

  function Parse(re: string): Pattern
    decreases |re|
  {
    if re == "" then Nothing
    else if |re| > 1 && re[1] == '*' then Star(re[0], Parse(re[2..]))
    else if re == "$" then End
    else One(re[0], Parse(re[1..]))
  }

  ghost predicate Repeats(c: char, w: string, k: nat) { k <= |w| && forall i :: 0 <= i < k ==> Accepts(c, w[i]) }

  /** The words of a pattern, part by part. */
  ghost predicate InLanguage(p: Pattern, w: string)
    decreases p
  {
    match p
    case Nothing => w == ""
    case End => w == ""
    case One(c, rest) => |w| > 0 && Accepts(c, w[0]) && InLanguage(rest, w[1..])
    case Star(c, rest) => exists k: nat :: Repeats(c, w, k) && InLanguage(rest, w[k..])
  }

  /** A pattern with a trailing $. */
  predicate AtEnd(p: Pattern) {
    match p
    case Nothing => false
    case End => true
    case One(_, rest) => AtEnd(rest)
    case Star(_, rest) => AtEnd(rest)
  }

  // ---- both say the same ----

  /** The part of the pattern from position `n` on is read as a pattern of its own. */
  lemma {:induction false} StarsFrom(re: string, n: nat, k: nat)
    requires n <= k < |re| && !IsStar(re, n)
    ensures IsStar(re[n..], k - n) == IsStar(re, k)
    decreases k
  {
    if k > n { StarsFrom(re, n, k - 1); }
  }

  /** The cuts `cs` are those of `cuts` from position `n` on, counted from `m`. */
  ghost predicate Shifted(cuts: seq<nat>, cs: seq<nat>, n: nat, m: nat) {
    |cuts| == n + |cs| && forall i :: 0 <= i < |cs| ==> cuts[n + i] == cs[i] + m
  }

  lemma TakesFrom(re: string, w: string, cuts: seq<nat>, cs: seq<nat>, n: nat, m: nat, k: nat)
    requires |cuts| == |re| + 1 && n <= k < |re| && !IsStar(re, n) && m <= |w| && Shifted(cuts, cs, n, m)
    ensures Takes(re, w, cuts, k) <==> Takes(re[n..], w[m..], cs, k - n)
  {
    var r, v := re[n..], w[m..];
    StarsFrom(re, n, k);
    if k + 1 < |re| { StarsFrom(re, n, k + 1); }
    assert cuts[n + (k - n)] == cs[k - n] + m && cuts[n + (k - n + 1)] == cs[k - n + 1] + m;
    hide IsStar;
    if Takes(re, w, cuts, k) {
      assert forall x :: cs[k - n] <= x < cs[k - n + 1] ==> v[x] == w[x + m];
    }
    if Takes(r, v, cs, k - n) {
      assert forall x :: cuts[k] <= x < cuts[k + 1] ==> w[x] == v[x - m];
    }
  }

  lemma DividesFrom(re: string, w: string, cuts: seq<nat>, cs: seq<nat>, n: nat, m: nat)
    requires |cuts| == |re| + 1 && n <= |re| && (n < |re| ==> !IsStar(re, n)) && m <= |w| && Shifted(cuts, cs, n, m)
    requires cuts[0] == 0 && cuts[n] == m && forall k: nat :: k < n ==> Takes(re, w, cuts, k)
    ensures Divides(re, w, cuts) <==> Divides(re[n..], w[m..], cs)
  {
    assert cuts[n + 0] == cs[0] + m && cuts[n + (|re| - n)] == cs[|re| - n] + m;
    forall k: nat | n <= k < |re|
      ensures Takes(re, w, cuts, k) <==> Takes(re[n..], w[m..], cs, k - n)
    {
      TakesFrom(re, w, cuts, cs, n, m, k);
    }
    hide Takes, IsStar;
    if Divides(re[n..], w[m..], cs) {
      forall k: nat | n <= k < |re|
        ensures Takes(re, w, cuts, k)
      {
        assert Takes(re[n..], w[m..], cs, k - n);
      }
    }
    if Divides(re, w, cuts) {
      forall j: nat | j < |re[n..]|
        ensures Takes(re[n..], w[m..], cs, j)
      {
        assert Takes(re, w, cuts, n + j);
      }
    }
  }

  lemma {:induction false} CutsRise(re: string, w: string, cuts: seq<nat>, n: nat, k: nat)
    requires Divides(re, w, cuts) && n <= k <= |re|
    ensures cuts[n] <= cuts[k] <= |w|
    decreases k
  {
    if n < k {
      CutsRise(re, w, cuts, n, k - 1);
      assert Takes(re, w, cuts, k - 1);
    } else if k < |re| {
      assert Takes(re, w, cuts, k);
    }
  }

  /** The cuts of the rest of a pattern. */
  lemma RestOfCuts(re: string, w: string, cuts: seq<nat>, n: nat) returns (cs: seq<nat>)
    requires Divides(re, w, cuts) && n <= |re|
    ensures cuts[n] <= |w| && Shifted(cuts, cs, n, cuts[n])
  {
    forall k | n <= k <= |re|
      ensures cuts[n] <= cuts[k] <= |w|
    {
      CutsRise(re, w, cuts, n, k);
    }
    var m := cuts[n];
    cs := seq(|cuts| - n, i requires 0 <= i < |cuts| - n && forall k :: n <= k < |cuts| ==>
                                                              m <= cuts[k] => cuts[n + i] - m);
  }

  lemma OneDivides(re: string, w: string)
    requires re != "" && !(|re| > 1 && re[1] == '*') && re != "$"
    ensures IsWordOf(re, w) <==> |w| > 0 && Accepts(re[0], w[0]) && IsWordOf(re[1..], w[1..])
  {
    if IsWordOf(re, w) {
      var cuts :| Divides(re, w, cuts);
      assert Takes(re, w, cuts, 0);
      var cs := RestOfCuts(re, w, cuts, 1);
      DividesFrom(re, w, cuts, cs, 1, 1);
    }
    if |w| > 0 && Accepts(re[0], w[0]) && IsWordOf(re[1..], w[1..]) {
      var cs :| Divides(re[1..], w[1..], cs);
      var cuts: seq<nat> := [0] + seq(|cs|, i requires 0 <= i < |cs| => cs[i] + 1);
      assert Takes(re, w, cuts, 0);
      DividesFrom(re, w, cuts, cs, 1, 1);
    }
  }

  lemma StarDivides(re: string, w: string)
    requires |re| > 1 && re[1] == '*'
    ensures IsWordOf(re, w) <==> exists k: nat :: Repeats(re[0], w, k) && IsWordOf(re[2..], w[k..])
  {
    assert !IsStar(re, 0) && IsStar(re, 1);
    if IsWordOf(re, w) {
      var cuts :| Divides(re, w, cuts);
      assert Takes(re, w, cuts, 0) && Takes(re, w, cuts, 1);
      var cs := RestOfCuts(re, w, cuts, 2);
      DividesFrom(re, w, cuts, cs, 2, cuts[1]);
      assert Repeats(re[0], w, cuts[1]);
    }
    if k: nat :| Repeats(re[0], w, k) && IsWordOf(re[2..], w[k..]) {
      var cs :| Divides(re[2..], w[k..], cs);
      var cuts: seq<nat> := [0, k] + seq(|cs|, i requires 0 <= i < |cs| => cs[i] + k);
      assert Takes(re, w, cuts, 0) && Takes(re, w, cuts, 1);
      DividesFrom(re, w, cuts, cs, 2, k);
    }
  }

  lemma EmptyDivides(w: string)
    ensures IsWordOf("", w) <==> w == ""
    ensures IsWordOf("$", w) <==> w == ""
  {
    if w == "" {
      assert Divides("", w, [0]);
      assert Divides("$", w, [0, 0]);
    }
    if IsWordOf("$", w) {
      var cuts :| Divides("$", w, cuts);
      assert Takes("$", w, cuts, 0);
    }
  }

  /** Taking a pattern apart from the left keeps its words. */
  lemma {:induction false} ParseKeepsWords(re: string, w: string)
    ensures InLanguage(Parse(re), w) <==> IsWordOf(re, w)
    decreases |re|
  {
    hide IsWordOf;
    EmptyDivides(w);
    if re == "" || re == "$" {
    } else if |re| > 1 && re[1] == '*' {
      StarDivides(re, w);
      forall k: nat | k <= |w|
        ensures InLanguage(Parse(re[2..]), w[k..]) <==> IsWordOf(re[2..], w[k..])
      {
        ParseKeepsWords(re[2..], w[k..]);
      }
    } else {
      OneDivides(re, w);
      if |w| > 0 { ParseKeepsWords(re[1..], w[1..]); }
    }
  }

  lemma {:induction false} ParseKeepsEnd(re: string)
    ensures AtEnd(Parse(re)) <==> EndsAnchored(re)
    decreases |re|
  {
    if re == "" || re == "$" {
    } else if |re| > 1 && re[1] == '*' {
      ParseKeepsEnd(re[2..]);
    } else {
      ParseKeepsEnd(re[1..]);
    }
  }

  /** Some prefix of the text is a word of the pattern; the whole text, if the pattern says so. */
  ghost predicate Starts(p: Pattern, t: string) {
    exists k :: 0 <= k <= |t| && InLanguage(p, t[..k]) && (AtEnd(p) ==> k == |t|)
  }

  lemma StartsOne(c: char, rest: Pattern, t: string)
    ensures Starts(One(c, rest), t) <==> |t| > 0 && Accepts(c, t[0]) && Starts(rest, t[1..])
  {
    if Starts(One(c, rest), t) {
      var k :| 0 <= k <= |t| && InLanguage(One(c, rest), t[..k]) && (AtEnd(rest) ==> k == |t|);
      assert t[..k][1..] == t[1..][..k - 1];
    }
    if |t| > 0 && Accepts(c, t[0]) && Starts(rest, t[1..]) {
      var k :| 0 <= k <= |t[1..]| && InLanguage(rest, t[1..][..k]) && (AtEnd(rest) ==> k == |t[1..]|);
      assert t[..k + 1][1..] == t[1..][..k];
    }
  }

  lemma StarNone(c: char, rest: Pattern, w: string)
    requires InLanguage(rest, w)
    ensures InLanguage(Star(c, rest), w)
  {
    assert w[0..] == w && Repeats(c, w, 0);
  }

  lemma StarMore(c: char, rest: Pattern, w: string)
    requires |w| > 0 && Accepts(c, w[0]) && InLanguage(Star(c, rest), w[1..])
    ensures InLanguage(Star(c, rest), w)
  {
    var v := w[1..];
    var k: nat :| Repeats(c, v, k) && InLanguage(rest, v[k..]);
    assert v[k..] == w[k + 1..];
    forall i | 0 <= i < k + 1
      ensures Accepts(c, w[i])
    {
      assert i > 0 ==> w[i] == v[i - 1];
    }
    assert Repeats(c, w, k + 1);
  }

  /** A star is nothing, or one accepted character and the star again. */
  lemma StarUnfolds(c: char, rest: Pattern, w: string)
    ensures InLanguage(Star(c, rest), w) <==>
              InLanguage(rest, w) || (|w| > 0 && Accepts(c, w[0]) && InLanguage(Star(c, rest), w[1..]))
  {
    if InLanguage(rest, w) { StarNone(c, rest, w); }
    if |w| > 0 && Accepts(c, w[0]) && InLanguage(Star(c, rest), w[1..]) { StarMore(c, rest, w); }
    if InLanguage(Star(c, rest), w) { StarSplits(c, rest, w); }
  }

  lemma StarSplits(c: char, rest: Pattern, w: string)
    requires InLanguage(Star(c, rest), w)
    ensures InLanguage(rest, w) || (|w| > 0 && Accepts(c, w[0]) && InLanguage(Star(c, rest), w[1..]))
  {
    var k: nat :| Repeats(c, w, k) && InLanguage(rest, w[k..]);
    if k == 0 {
      assert w[0..] == w;
    } else {
      var v := w[1..];
      assert v[k - 1..] == w[k..];
      assert Repeats(c, v, k - 1);
    }
  }

  lemma StartsStar(c: char, rest: Pattern, t: string)
    ensures Starts(Star(c, rest), t) <==>
              Starts(rest, t) || (|t| > 0 && Accepts(c, t[0]) && Starts(Star(c, rest), t[1..]))
  {
    var p := Star(c, rest);
    if Starts(p, t) {
      var k :| 0 <= k <= |t| && InLanguage(p, t[..k]) && (AtEnd(p) ==> k == |t|);
      StarUnfolds(c, rest, t[..k]);
      if k > 0 { assert t[..k][1..] == t[1..][..k - 1]; }
    }
    if Starts(rest, t) {
      var k :| 0 <= k <= |t| && InLanguage(rest, t[..k]) && (AtEnd(rest) ==> k == |t|);
      StarUnfolds(c, rest, t[..k]);
    }
    if |t| > 0 && Accepts(c, t[0]) && Starts(p, t[1..]) {
      var k :| 0 <= k <= |t[1..]| && InLanguage(p, t[1..][..k]) && (AtEnd(p) ==> k == |t[1..]|);
      assert t[..k + 1][1..] == t[1..][..k];
      StarUnfolds(c, rest, t[..k + 1]);
    }
  }

  /** The same for the words of the string. */
  ghost predicate StartsWith(re: string, t: string) {
    exists k :: 0 <= k <= |t| && IsWordOf(re, t[..k]) && (EndsAnchored(re) ==> k == |t|)
  }

  lemma ParseKeepsStarts(re: string, t: string)
    ensures Starts(Parse(re), t) <==> StartsWith(re, t)
  {
    hide IsWordOf, EndsAnchored, Parse;
    ParseKeepsEnd(re);
    forall k | 0 <= k <= |t|
      ensures InLanguage(Parse(re), t[..k]) <==> IsWordOf(re, t[..k])
    {
      ParseKeepsWords(re, t[..k]);
    }
  }

  /** `matchhere`, at `re[i..]` and `text[j..]`. */
  method MatchHere(re: string, i: nat, text: string, j: nat) returns (r: bool)
    requires i <= |re| && j <= |text|
    ensures r <==> StartsWith(re[i..], text[j..])
    ensures r <==> Starts(Parse(re[i..]), text[j..])
    decreases |re| - i, 0
  {
    ParseKeepsStarts(re[i..], text[j..]);
    hide StartsWith;
    if i == |re| {
      assert text[j..][..0] == "";
      return true;
    }
    if i + 1 < |re| && re[i + 1] == '*' {
      assert re[i..][2..] == re[i + 2..];
      r := MatchStar(re[i], re, i + 2, text, j);
      return;
    }
    if re[i] == '$' && i + 1 == |re| {
      assert re[i..] == "$";
      assert text[j..][..|text[j..]|] == text[j..];
      return j == |text|;
    }
    assert re[i..][1..] == re[i + 1..];
    StartsOne(re[i], Parse(re[i + 1..]), text[j..]);
    if j < |text| && (re[i] == '.' || re[i] == text[j]) {
      assert text[j..][1..] == text[j + 1..];
      r := MatchHere(re, i + 1, text, j + 1);
      return;
    }
    r := false;
  }

  /** `matchstar`: its loop moves along the text while the character is accepted. */
  method MatchStar(c: char, re: string, i: nat, text: string, j: nat) returns (r: bool)
    requires i <= |re| && j <= |text|
    ensures r <==> StartsWith([c, '*'] + re[i..], text[j..])
    ensures r <==> Starts(Star(c, Parse(re[i..])), text[j..])
    decreases |re| - i, 1
  {
    ParseKeepsStarts([c, '*'] + re[i..], text[j..]);
    assert ([c, '*'] + re[i..])[2..] == re[i..];
    hide StartsWith;
    var k := j;
    while true
      invariant j <= k <= |text|
      invariant Starts(Star(c, Parse(re[i..])), text[j..]) <==> Starts(Star(c, Parse(re[i..])), text[k..])
      decreases |text| - k
    {
      StartsStar(c, Parse(re[i..]), text[k..]);
      r := MatchHere(re, i, text, k);
      if r { return; }
      if k == |text| || !(text[k] == c || c == '.') { return false; }
      assert text[k..][1..] == text[k + 1..];
      k := k + 1;
    }
  }

  /** Some part of the text is a word of the pattern: from the start under a leading ^, to the end under a
      trailing $. */
  ghost predicate Matches(re: string, text: string) {
    var anchored := |re| > 0 && re[0] == '^';
    var p := if anchored then re[1..] else re;
    exists i, j ::
      0 <= i <= j <= |text| && IsWordOf(p, text[i..j]) && (anchored ==> i == 0) && (EndsAnchored(p) ==> j == |text|)
  }

  /** `match`. */
  method Match(re: string, text: string) returns (r: bool)
    ensures r <==> Matches(re, text)
  {
    if |re| > 0 && re[0] == '^' {
      r := MatchHere(re, 1, text, 0);
      FromStart(re[1..], text, 0);
      return;
    }
    var j := 0;
    while true
      invariant 0 <= j <= |text|
      invariant forall k :: 0 <= k < j ==> !StartsWith(re, text[k..])
      decreases |text| - j
    {
      assert re[0..] == re;
      r := MatchHere(re, 0, text, j);
      if r {
        FromStart(re, text, j);
        return;
      }
      if j == |text| {
        forall k: nat | k <= |text| ensures !StartsWith(re, text[k..]) {}
        Nowhere(re, text);
        return false;
      }
      j := j + 1;
    }
  }

  /** A prefix of the text from `i` on is a part of the text. */
  lemma FromStart(re: string, text: string, i: nat)
    requires i <= |text|
    ensures StartsWith(re, text[i..]) <==>
              exists j :: i <= j <= |text| && IsWordOf(re, text[i..j]) && (EndsAnchored(re) ==> j == |text|)
  {
    hide IsWordOf, EndsAnchored;
    if StartsWith(re, text[i..]) {
      var k :| 0 <= k <= |text[i..]| && IsWordOf(re, text[i..][..k]) && (EndsAnchored(re) ==> k == |text[i..]|);
      assert text[i..][..k] == text[i..i + k];
    }
    if j :| i <= j <= |text| && IsWordOf(re, text[i..j]) && (EndsAnchored(re) ==> j == |text|) {
      assert text[i..][..j - i] == text[i..j];
    }
  }

  lemma Nowhere(re: string, text: string)
    requires !(|re| > 0 && re[0] == '^') && forall k: nat :: k <= |text| ==> !StartsWith(re, text[k..])
    ensures !Matches(re, text)
  {
    hide IsWordOf, EndsAnchored, StartsWith;
    if Matches(re, text) {
      var i, j :| 0 <= i <= j <= |text| && IsWordOf(re, text[i..j]) && (EndsAnchored(re) ==> j == |text|);
      FromStart(re, text, i);
    }
  }
}
