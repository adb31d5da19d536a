/**
The shell's parser: a recursive-descent parser over a character buffer, which accepts exactly the lines that the
grammar of lines, pipes, blocks and simple commands derives, and the in-place termination of the words it found.
*/
module Shell {
  const MAXARGS: nat := 10
  const O_RDONLY: nat := 0x000
  const O_WRONLY: nat := 0x001
  const O_CREATE: nat := 0x200
  const O_TRUNC: nat := 0x400
  const NUL: char := '\0'

  // ----- Tokens -----

  predicate White(c: char) { c == ' ' || c == '\t' || c == '\r' || c == '\n' || c == '\U{0B}' }

  predicate Symbol(c: char) { c == '<' || c == '|' || c == '>' || c == '&' || c == ';' || c == '(' || c == ')' }

  predicate WordChar(c: char) { !White(c) && !Symbol(c) }

  /** A word is a slice of the input, [q, eq); an operator is its character, '+' standing for >>. */
  datatype Tok = Word(q: nat, eq: nat) | Op(c: char)

  /** The first position from i on that is not white space. */
  function Skip(s: string, i: nat): (j: nat)
    requires i <= |s|
    ensures i <= j <= |s| && (j < |s| ==> !White(s[j])) && forall k :: i <= k < j ==> White(s[k])
    decreases |s| - i
  {
    if i < |s| && White(s[i]) then Skip(s, i + 1) else i
  }

  /** The end of the word that is being read at i. */
  function WordEnd(s: string, i: nat): (j: nat)
    requires i <= |s|
    ensures i <= j <= |s| && (j < |s| ==> !WordChar(s[j])) && forall k :: i <= k < j ==> WordChar(s[k])
    decreases |s| - i
  {
    if i < |s| && WordChar(s[i]) then WordEnd(s, i + 1) else i
  }

  /** The token that starts at j, and the position after it. */
  function Lexeme(s: string, j: nat): (r: (Tok, nat))
    requires j < |s| && !White(s[j])
    ensures j < r.1 <= |s|
  {
    if s[j] == '>' then (if j + 1 < |s| && s[j + 1] == '>' then (Op('+'), j + 2) else (Op('>'), j + 1))
    else if Symbol(s[j]) then (Op(s[j]), j + 1)
    else (Word(j, WordEnd(s, j)), WordEnd(s, j))
  }

  /** The tokens of the input from i on. */
  function Toks(s: string, i: nat): seq<Tok>
    requires i <= |s|
    decreases |s| - i
  {
    var j := Skip(s, i);
    if j == |s| then [] else [Lexeme(s, j).0] + Toks(s, Lexeme(s, j).1)
  }

  predicate Blank(c: char) { c in " \t\r\n\U{0B}" }

  predicate Punctuation(c: char) { c in "<|>&;()" }

  /**
  What the tokens are, from the characters alone: after blanks, `>>` is one operator, every other punctuation character is
  one by itself, and anything else begins a word that runs to the next blank or punctuation.
  */
  lemma TokensAre(s: string, i: nat, j: nat, e: nat)
    requires i <= j <= |s| && (forall k :: i <= k < j ==> Blank(s[k])) && (j < |s| ==> !Blank(s[j]))
    ensures j == |s| ==> Toks(s, i) == []
    ensures j + 1 < |s| && s[j] == s[j + 1] == '>' ==> Toks(s, i) == [Op('+')] + Toks(s, j + 2)
    ensures j < |s| && Punctuation(s[j]) && !(s[j] == '>' && j + 1 < |s| && s[j + 1] == '>') ==>
              Toks(s, i) == [Op(s[j])] + Toks(s, j + 1)
    ensures j < e <= |s| && (forall k :: j <= k < e ==> !Blank(s[k]) && !Punctuation(s[k]))
            && (e < |s| ==> Blank(s[e]) || Punctuation(s[e])) ==>
              Toks(s, i) == [Word(j, e)] + Toks(s, e)
  {
    SkipsTo(s, i, j);
    if j < e <= |s| && (forall k :: j <= k < e ==> !Blank(s[k]) && !Punctuation(s[k]))
       && (e < |s| ==> Blank(s[e]) || Punctuation(s[e])) {
      EndsThere(s, j, e);
    }
  }

  lemma SkipsTo(s: string, i: nat, j: nat)
    requires i <= j <= |s| && (forall k :: i <= k < j ==> Blank(s[k])) && (j < |s| ==> !Blank(s[j]))
    ensures Skip(s, i) == j && (j < |s| ==> !White(s[j]))
  {
    var skip := Skip(s, i);
    assert skip < j ==> Blank(s[skip]);
  }

  lemma EndsThere(s: string, j: nat, e: nat)
    requires j < e <= |s| && forall k :: j <= k < e ==> !Blank(s[k]) && !Punctuation(s[k])
    requires e < |s| ==> Blank(s[e]) || Punctuation(s[e])
    ensures WordEnd(s, j) == e && !Symbol(s[j])
  {
    var w := WordEnd(s, j);
  }

  // ----- The grammar, as trees that keep every token -----

  datatype Item = Arg(w: Tok) | File(op: char, w: Tok)

  datatype Line = Last(pipe: Pipe, amps: nat) | More(pipe: Pipe, amps: nat, rest: Line)
  datatype Pipe = One(exec: Exec) | Piped(exec: Exec, rest: Pipe)
  datatype Exec = Block(line: Line, redirs: seq<Item>) | Simple(items: seq<Item>)

  predicate RedirOp(c: char) { c == '<' || c == '>' || c == '+' }

  function ItemToks(i: Item): seq<Tok> { match i case Arg(w) => [w] case File(op, w) => [Op(op), w] }

  function ItemsToks(items: seq<Item>): seq<Tok> {
    if items == [] then [] else ItemToks(items[0]) + ItemsToks(items[1..])
  }

  function Amps(n: nat): seq<Tok> { seq(n, _ => Op('&')) }

  /** The token string a tree derives. */
  function LineToks(l: Line): seq<Tok> {
    match l
    case Last(p, n) => PipeToks(p) + Amps(n)
    case More(p, n, rest) => PipeToks(p) + Amps(n) + [Op(';')] + LineToks(rest)
  }

  function PipeToks(p: Pipe): seq<Tok> {
    match p
    case One(e) => ExecToks(e)
    case Piped(e, rest) => ExecToks(e) + [Op('|')] + PipeToks(rest)
  }

  function ExecToks(e: Exec): seq<Tok> {
    match e
    case Block(l, rs) => [Op('(')] + LineToks(l) + [Op(')')] + ItemsToks(rs)
    case Simple(items) => ItemsToks(items)
  }

  predicate ItemOk(i: Item) { i.w.Word? && (i.File? ==> RedirOp(i.op)) }

  function Args(items: seq<Item>): nat {
    if items == [] then 0 else (if items[0].Arg? then 1 else 0) + Args(items[1..])
  }

  predicate ItemsOk(items: seq<Item>) { forall k :: 0 <= k < |items| ==> ItemOk(items[k]) }

  /** Words where words belong, redirections after a block only, and fewer than MAXARGS arguments to a command. */
  predicate LineOk(l: Line) { PipeOk(l.pipe) && (l.More? ==> LineOk(l.rest)) }

  predicate PipeOk(p: Pipe) { ExecOk(p.exec) && (p.Piped? ==> PipeOk(p.rest)) }

  predicate ExecOk(e: Exec) {
    match e
    case Block(l, rs) => LineOk(l) && ItemsOk(rs) && Args(rs) == 0
    case Simple(items) => ItemsOk(items) && Args(items) < MAXARGS
  }

  // ----- The parser on tokens -----

  datatype Parsed<T> = Ok(tree: T, rest: seq<Tok>) | Syntax

  predicate Starts(ts: seq<Tok>, c: char) { ts != [] && ts[0] == Op(c) }

  predicate StartsRedir(ts: seq<Tok>) { ts != [] && ts[0].Op? && RedirOp(ts[0].c) }

  /** parseexec's loop ends here. */
  predicate AtStop(ts: seq<Tok>) { ts == [] || Starts(ts, '|') || Starts(ts, ')') || Starts(ts, '&') || Starts(ts, ';') }

  function CountAmps(ts: seq<Tok>): (n: nat)
    ensures n <= |ts| && ts[..n] == Amps(n) && !Starts(ts[n..], '&')
  {
    if Starts(ts, '&') then
      var n := CountAmps(ts[1..]);
      assert ts[..n + 1] == [ts[0]] + ts[1..][..n];
      assert ts[n + 1..] == ts[1..][n..];
      n + 1
    else 0
  }

  function ParseLine(ts: seq<Tok>): (r: Parsed<Line>)
    ensures r.Ok? ==> |r.rest| <= |ts|
    decreases |ts|, 3
  {
    var p := ParsePipe(ts);
    if p.Syntax? then Syntax else
      var n := CountAmps(p.rest);
      var after := p.rest[n..];
      if Starts(after, ';') then
        var l := ParseLine(after[1..]);
        if l.Syntax? then Syntax else Ok(More(p.tree, n, l.tree), l.rest)
      else Ok(Last(p.tree, n), after)
  }

  function ParsePipe(ts: seq<Tok>): (r: Parsed<Pipe>)
    ensures r.Ok? ==> |r.rest| <= |ts|
    decreases |ts|, 2
  {
    var e := ParseExec(ts);
    if e.Syntax? then Syntax
    else if Starts(e.rest, '|') then
      var p := ParsePipe(e.rest[1..]);
      if p.Syntax? then Syntax else Ok(Piped(e.tree, p.tree), p.rest)
    else Ok(One(e.tree), e.rest)
  }

  function ParseExec(ts: seq<Tok>): (r: Parsed<Exec>)
    ensures r.Ok? ==> |r.rest| <= |ts|
    decreases |ts|, 1
  {
    if Starts(ts, '(') then
      var l := ParseLine(ts[1..]);
      if l.Syntax? || !Starts(l.rest, ')') then Syntax else
        var rs := ParseRedirs(l.rest[1..]);
        if rs.Syntax? then Syntax else Ok(Block(l.tree, rs.tree), rs.rest)
    else
      var items := ParseItems(ts, 0);
      if items.Syntax? then Syntax else Ok(Simple(items.tree), items.rest)
  }

  function ParseRedirs(ts: seq<Tok>): (r: Parsed<seq<Item>>)
    ensures r.Ok? ==> |r.rest| <= |ts|
  {
    if !StartsRedir(ts) then Ok([], ts)
    else if |ts| < 2 || !ts[1].Word? then Syntax              // "missing file for redirection"
    else
      var r := ParseRedirs(ts[2..]);
      if r.Syntax? then Syntax else Ok([File(ts[0].c, ts[1])] + r.tree, r.rest)
  }

  /** The words and redirections of a simple command that has argc words already. */
  function ParseItems(ts: seq<Tok>, argc: nat): (r: Parsed<seq<Item>>)
    ensures r.Ok? ==> |r.rest| <= |ts|
  {
    if StartsRedir(ts) then
      if |ts| < 2 || !ts[1].Word? then Syntax else
        var r := ParseItems(ts[2..], argc);
        if r.Syntax? then Syntax else Ok([File(ts[0].c, ts[1])] + r.tree, r.rest)
    else if AtStop(ts) then Ok([], ts)
    else if !ts[0].Word? || argc + 1 >= MAXARGS then Syntax    // "syntax", "too many args"
    else
      var r := ParseItems(ts[1..], argc + 1);
      if r.Syntax? then Syntax else Ok([Arg(ts[0])] + r.tree, r.rest)
  }

  // ----- What it accepts -----

  lemma {:induction false} RedirsSound(ts: seq<Tok>)
    ensures var r := ParseRedirs(ts);
      r.Ok? ==> ts == ItemsToks(r.tree) + r.rest && ItemsOk(r.tree) && Args(r.tree) == 0 && !StartsRedir(r.rest)
  {
    var r := ParseRedirs(ts);
    if r.Ok? && r.tree != [] {
      RedirsSound(ts[2..]);
      assert r.tree[1..] == ParseRedirs(ts[2..]).tree;
      assert ts == [ts[0], ts[1]] + ts[2..];
    }
  }

  lemma {:induction false} ItemsSound(ts: seq<Tok>, argc: nat)
    requires argc < MAXARGS
    ensures var r := ParseItems(ts, argc);
      r.Ok? ==> ts == ItemsToks(r.tree) + r.rest && ItemsOk(r.tree) && argc + Args(r.tree) < MAXARGS && AtStop(r.rest)
    decreases |ts|
  {
    var r := ParseItems(ts, argc);
    if r.Ok? && r.tree != [] {
      if StartsRedir(ts) {
        ItemsSound(ts[2..], argc);
        MoreItems(File(ts[0].c, ts[1]), ParseItems(ts[2..], argc).tree, r.rest);
        assert ts == [ts[0], ts[1]] + ts[2..];
      } else {
        ItemsSound(ts[1..], argc + 1);
        MoreItems(Arg(ts[0]), ParseItems(ts[1..], argc + 1).tree, r.rest);
        assert ts == [ts[0]] + ts[1..];
      }
    }
  }

  lemma MoreItems(x: Item, items: seq<Item>, rest: seq<Tok>)
    ensures ItemsToks([x] + items) + rest == ItemToks(x) + (ItemsToks(items) + rest)
    ensures Args([x] + items) == (if x.Arg? then 1 else 0) + Args(items)
    ensures ItemsOk(items) && ItemOk(x) ==> ItemsOk([x] + items)
  {
    assert ([x] + items)[1..] == items;
    Regroup(ItemToks(x), ItemsToks(items), rest);
  }

  lemma Regroup(a: seq<Tok>, b: seq<Tok>, c: seq<Tok>)
    ensures (a + b) + c == a + (b + c)
  {
  }

  lemma Head(x: Tok, ts: seq<Tok>)
    ensures ([x] + ts)[1..] == ts && ([x] + ts)[0] == x && |[x] + ts| == |ts| + 1
  {
  }

  lemma Head2(x: Tok, y: Tok, ts: seq<Tok>)
    ensures ([x, y] + ts)[2..] == ts && ([x, y] + ts)[0] == x && ([x, y] + ts)[1] == y && |[x, y] + ts| == |ts| + 2
  {
  }

  lemma Front(ts: seq<Tok>)
    requires ts != []
    ensures [ts[0]] + ts[1..] == ts
  {
  }

  /** What the parser has read is what the tree derives. */
  lemma {:induction false} LineSound(ts: seq<Tok>)
    ensures var r := ParseLine(ts); r.Ok? ==> ts == LineToks(r.tree) + r.rest && LineOk(r.tree)
    decreases |ts|, 3
  {
    PipeSound(ts);
    var p, r := ParsePipe(ts), ParseLine(ts);
    if r.Ok? {
      var n := CountAmps(p.rest);
      var after := p.rest[n..];
      assert p.rest == Amps(n) + after;
      Regroup(PipeToks(p.tree), Amps(n), after);
      if r.tree.More? {
        LineSound(after[1..]);
        Front(after);
        Regroup([Op(';')], LineToks(r.tree.rest), r.rest);
        Regroup(PipeToks(p.tree) + Amps(n), [Op(';')] + LineToks(r.tree.rest), r.rest);
        Regroup(PipeToks(p.tree) + Amps(n), [Op(';')], LineToks(r.tree.rest));
      }
    }
  }

  lemma {:induction false} PipeSound(ts: seq<Tok>)
    ensures var r := ParsePipe(ts); r.Ok? ==> ts == PipeToks(r.tree) + r.rest && PipeOk(r.tree)
    decreases |ts|, 2
  {
    ExecSound(ts);
    var e, r := ParseExec(ts), ParsePipe(ts);
    if r.Ok? && r.tree.Piped? {
      PipeSound(e.rest[1..]);
      Front(e.rest);
      Regroup([Op('|')], PipeToks(r.tree.rest), r.rest);
      Regroup(ExecToks(e.tree), [Op('|')] + PipeToks(r.tree.rest), r.rest);
      Regroup(ExecToks(e.tree), [Op('|')], PipeToks(r.tree.rest));
    }
  }

  lemma {:induction false} ExecSound(ts: seq<Tok>)
    ensures var r := ParseExec(ts); r.Ok? ==> ts == ExecToks(r.tree) + r.rest && ExecOk(r.tree)
    decreases |ts|, 1
  {
    if Starts(ts, '(') {
      BlockSound(ts);
    } else {
      ItemsSound(ts, 0);
    }
  }

  lemma {:induction false} BlockSound(ts: seq<Tok>)
    requires Starts(ts, '(')
    ensures var r := ParseExec(ts); r.Ok? ==> ts == ExecToks(r.tree) + r.rest && ExecOk(r.tree)
    decreases |ts|, 0
  {
    var r, l := ParseExec(ts), ParseLine(ts[1..]);
    LineSound(ts[1..]);
    if r.Ok? {
      RedirsSound(l.rest[1..]);
      Front(ts);
      Front(l.rest);
      BlockToks(l.tree, r.tree.redirs, r.rest);
    }
  }

  lemma BlockToks(l: Line, rs: seq<Item>, rest: seq<Tok>)
    ensures ExecToks(Block(l, rs)) + rest == [Op('(')] + (LineToks(l) + ([Op(')')] + (ItemsToks(rs) + rest)))
  {
    Regroup([Op('(')], LineToks(l), [Op(')')]);
    Regroup([Op('(')], LineToks(l) + [Op(')')], ItemsToks(rs));
    Regroup([Op('(')], LineToks(l) + [Op(')')] + ItemsToks(rs), rest);
    Regroup(LineToks(l), [Op(')')], ItemsToks(rs));
    Regroup(LineToks(l), [Op(')')] + ItemsToks(rs), rest);
    Regroup([Op(')')], ItemsToks(rs), rest);
  }

  // ----- It accepts everything the grammar derives, with no other tree -----

  lemma RedirStep(op: char, w: Tok, ts: seq<Tok>)
    requires RedirOp(op) && w.Word?
    ensures var r := ParseRedirs(ts);
      ParseRedirs([Op(op), w] + ts) == if r.Syntax? then Syntax else Ok([File(op, w)] + r.tree, r.rest)
  {
    Head2(Op(op), w, ts);
  }

  lemma ItemFileStep(op: char, w: Tok, ts: seq<Tok>, argc: nat)
    requires RedirOp(op) && w.Word?
    ensures var r := ParseItems(ts, argc);
      ParseItems([Op(op), w] + ts, argc) == if r.Syntax? then Syntax else Ok([File(op, w)] + r.tree, r.rest)
  {
    Head2(Op(op), w, ts);
  }

  lemma ItemArgStep(w: Tok, ts: seq<Tok>, argc: nat)
    requires w.Word? && argc + 1 < MAXARGS
    ensures var r := ParseItems(ts, argc + 1);
      ParseItems([w] + ts, argc) == if r.Syntax? then Syntax else Ok([Arg(w)] + r.tree, r.rest)
  {
    Head(w, ts);
  }

  lemma {:induction false} RedirsComplete(rs: seq<Item>, rest: seq<Tok>)
    requires ItemsOk(rs) && Args(rs) == 0 && !StartsRedir(rest)
    ensures ParseRedirs(ItemsToks(rs) + rest) == Ok(rs, rest)
    decreases |rs|
  {
    if rs == [] {
      assert ItemsToks(rs) + rest == rest;
    } else {
      RedirsComplete(rs[1..], rest);
      assert ItemOk(rs[0]) && rs[0].File?;
      Regroup(ItemToks(rs[0]), ItemsToks(rs[1..]), rest);
      RedirStep(rs[0].op, rs[0].w, ItemsToks(rs[1..]) + rest);
      assert [rs[0]] + rs[1..] == rs;
    }
  }

  lemma {:induction false} ItemsComplete(items: seq<Item>, rest: seq<Tok>, argc: nat)
    requires ItemsOk(items) && argc + Args(items) < MAXARGS && AtStop(rest)
    ensures ParseItems(ItemsToks(items) + rest, argc) == Ok(items, rest)
    decreases |items|
  {
    if items == [] {
      assert ItemsToks(items) + rest == rest;
    } else {
      assert [items[0]] + items[1..] == items && ItemOk(items[0]);
      Regroup(ItemToks(items[0]), ItemsToks(items[1..]), rest);
      if items[0].File? {
        ItemsComplete(items[1..], rest, argc);
        ItemFileStep(items[0].op, items[0].w, ItemsToks(items[1..]) + rest, argc);
      } else {
        ItemsComplete(items[1..], rest, argc + 1);
        ItemArgStep(items[0].w, ItemsToks(items[1..]) + rest, argc);
      }
    }
  }

  /** What may follow a whole line: the end of the input, or the parenthesis that closes a block. */
  predicate LineEnd(ts: seq<Tok>) { ts == [] || Starts(ts, ')') }

  lemma AmpsCounted(n: nat, rest: seq<Tok>)
    requires !Starts(rest, '&')
    ensures CountAmps(Amps(n) + rest) == n && (Amps(n) + rest)[n..] == rest
  {
    if n == 0 {
      assert Amps(0) + rest == rest;
    } else {
      AmpsCounted(n - 1, rest);
      assert (Amps(n) + rest)[1..] == Amps(n - 1) + rest;
    }
  }

  lemma {:induction false} LineComplete(l: Line, rest: seq<Tok>)
    requires LineOk(l) && LineEnd(rest)
    ensures ParseLine(LineToks(l) + rest) == Ok(l, rest)
    decreases l, 3
  {
    var tail := if l.Last? then rest else [Op(';')] + (LineToks(l.rest) + rest);
    var n := l.amps;
    LineSplit(l, rest);
    AmpsStop(n, tail);
    PipeComplete(l.pipe, Amps(n) + tail);
    AmpsCounted(n, tail);
    if l.More? {
      Head(Op(';'), LineToks(l.rest) + rest);
      LineComplete(l.rest, rest);
    }
  }

  lemma LineSplit(l: Line, rest: seq<Tok>)
    ensures var tail := if l.Last? then rest else [Op(';')] + (LineToks(l.rest) + rest);
      LineToks(l) + rest == PipeToks(l.pipe) + (Amps(l.amps) + tail)
  {
    var p, a := PipeToks(l.pipe), Amps(l.amps);
    Regroup(p, a, rest);
    if l.More? {
      Regroup(p + a, [Op(';')], LineToks(l.rest));
      Regroup(p + a, [Op(';')] + LineToks(l.rest), rest);
      Regroup([Op(';')], LineToks(l.rest), rest);
      Regroup(p, a, [Op(';')] + (LineToks(l.rest) + rest));
    }
  }

  /** What may follow a pipe. */
  lemma AmpsStop(n: nat, tail: seq<Tok>)
    requires LineEnd(tail) || Starts(tail, ';')
    ensures LineEnd(Amps(n) + tail) || Starts(Amps(n) + tail, ';') || Starts(Amps(n) + tail, '&')
  {
    if n == 0 { assert Amps(0) + tail == tail; }
  }

  lemma {:induction false} PipeComplete(p: Pipe, rest: seq<Tok>)
    requires PipeOk(p) && (LineEnd(rest) || Starts(rest, ';') || Starts(rest, '&'))
    ensures ParsePipe(PipeToks(p) + rest) == Ok(p, rest)
    decreases p, 2
  {
    if p.One? {
      ExecComplete(p.exec, rest);
    } else {
      var tail := PipeToks(p.rest) + rest;
      Regroup(ExecToks(p.exec), [Op('|')], PipeToks(p.rest));
      Regroup(ExecToks(p.exec), [Op('|')] + PipeToks(p.rest), rest);
      Regroup([Op('|')], PipeToks(p.rest), rest);
      Head(Op('|'), tail);
      ExecComplete(p.exec, [Op('|')] + tail);
      PipeComplete(p.rest, rest);
    }
  }

  lemma {:induction false} ExecComplete(e: Exec, rest: seq<Tok>)
    requires ExecOk(e) && AtStop(rest)
    ensures ParseExec(ExecToks(e) + rest) == Ok(e, rest)
    decreases e, 1
  {
    if e.Block? {
      var inner := [Op(')')] + (ItemsToks(e.redirs) + rest);
      BlockToks(e.line, e.redirs, rest);
      Head(Op('('), LineToks(e.line) + inner);
      Head(Op(')'), ItemsToks(e.redirs) + rest);
      LineComplete(e.line, inner);
      RedirsComplete(e.redirs, rest);
    } else {
      SimpleNoParen(e.items, rest);
      ItemsComplete(e.items, rest, 0);
    }
  }

  lemma SimpleNoParen(items: seq<Item>, rest: seq<Tok>)
    requires ItemsOk(items) && AtStop(rest)
    ensures !Starts(ItemsToks(items) + rest, '(')
  {
    if items == [] {
      assert ItemsToks(items) + rest == rest;
    } else {
      assert ItemOk(items[0]);
      assert (ItemsToks(items) + rest)[0] == ItemToks(items[0])[0];
    }
  }

  /** The parser takes a token string whole exactly when the grammar derives it, and then yields its one tree. */
  lemma AcceptsTheGrammar(ts: seq<Tok>, l: Line)
    ensures ParseLine(ts) == Ok(l, []) <==> LineOk(l) && LineToks(l) == ts
  {
    LineSound(ts);
    if ParseLine(ts) == Ok(l, []) { assert LineToks(l) + [] == LineToks(l); }
    if LineOk(l) && LineToks(l) == ts {
      LineComplete(l, []);
      assert LineToks(l) + [] == ts;
    }
  }

  lemma NoTwoTrees(l: Line, m: Line)
    requires LineOk(l) && LineOk(m) && LineToks(l) == LineToks(m)
    ensures l == m
  {
    AcceptsTheGrammar(LineToks(l), l);
    AcceptsTheGrammar(LineToks(l), m);
  }

  // ----- The commands the parser builds -----

  /** argv entries and file names are word tokens: the pair of pointers that the structures hold. */
  datatype Cmd =
    | ExecCmd(argv: seq<Tok>)
    | RedirCmd(cmd: Cmd, file: Tok, mode: nat, fd: nat)
    | PipeCmd(left: Cmd, right: Cmd)
    | ListCmd(left: Cmd, right: Cmd)
    | BackCmd(cmd: Cmd)

  function Redirected(c: Cmd, op: char, w: Tok): Cmd {
    if op == '<' then RedirCmd(c, w, O_RDONLY, 0)
    else if op == '>' then RedirCmd(c, w, O_WRONLY + O_CREATE + O_TRUNC, 1)
    else RedirCmd(c, w, O_WRONLY + O_CREATE, 1)
  }

  /** A command inside its redirections, the first one innermost. */
  function Wrapped(c: Cmd, items: seq<Item>): Cmd
    decreases |items|
  {
    if items == [] then c
    else Wrapped(if items[0].File? then Redirected(c, items[0].op, items[0].w) else c, items[1..])
  }

  function ArgWords(items: seq<Item>): seq<Tok> {
    if items == [] then [] else (if items[0].Arg? then [items[0].w] else []) + ArgWords(items[1..])
  }

  function Files(items: seq<Item>): seq<Item> {
    if items == [] then [] else (if items[0].File? then [items[0]] else []) + Files(items[1..])
  }

  function Backs(c: Cmd, n: nat): Cmd { if n == 0 then c else BackCmd(Backs(c, n - 1)) }

  function LineCmd(l: Line): Cmd {
    var c := Backs(PipeCmdOf(l.pipe), l.amps);
    if l.Last? then c else ListCmd(c, LineCmd(l.rest))
  }

  function PipeCmdOf(p: Pipe): Cmd {
    if p.One? then ExecCmdOf(p.exec) else PipeCmd(ExecCmdOf(p.exec), PipeCmdOf(p.rest))
  }

  function ExecCmdOf(e: Exec): Cmd {
    match e
    case Block(l, rs) => Wrapped(LineCmd(l), rs)
    case Simple(items) => Wrapped(ExecCmd(ArgWords(items)), items)
  }

  // ----- What a command says, token by token -----

  /** The token, as the shell's user knows it, for a redirection with this mode and descriptor. */
  predicate RedirFits(t: Tok, mode: nat, fd: nat) {
    || (t == Op('<') && mode == 0x000 && fd == 0)
    || (t == Op('>') && mode == 0x601 && fd == 1)
    || (t == Op('+') && mode == 0x201 && fd == 1)
  }

  predicate OnlyWords(ts: seq<Tok>) { forall k :: 0 <= k < |ts| ==> ts[k].Word? }

  /** The token at k joins the commands before and after it. */
  ghost predicate Joins(c: Cmd, ts: seq<Tok>, k: nat)
    requires c.ListCmd? || c.PipeCmd?
    decreases |ts|, 0
  {
    && k < |ts|
    && if c.ListCmd? then ts[k] == Op(';') && Spells(c.left, ts[..k], 2) && Spells(c.right, ts[k + 1..], 3)
       else ts[k] == Op('|') && Spells(c.left, ts[..k], 0) && Spells(c.right, ts[k + 1..], 1)
  }

  /** The tokens at k and after it are the last redirection, and the rest are the command inside it. */
  ghost predicate RedirectedAt(c: Cmd, ts: seq<Tok>, k: nat)
    requires c.RedirCmd?
    decreases |ts|, 0
  {
    && k + 1 < |ts| && RedirFits(ts[k], c.mode, c.fd) && ts[k + 1] == c.file && OnlyWords(ts[k + 1..])
    && (k > 0 ==> ts[k - 1].Word? || ts[k - 1] == Op(')'))
    && Spells(c.cmd, ts[..k] + ts[k + 2..], 0)
  }

  /**
  The tokens, all of them and in this order, are a way to write the command: ';' between the sides of a list, '&' after a
  background command, '|' between the sides of a pipe, redirections anywhere among the words of a simple command or after
  a block, later ones outside earlier ones. Level 3 is a line, 2 a part of a list, 1 a pipe, 0 a part of a pipe; a line in
  parentheses is of any level.
  */
  ghost predicate Spells(c: Cmd, ts: seq<Tok>, level: nat)
    decreases |ts|, level + 1
  {
    if level >= 3 then Spells(c, ts, 2) || (c.ListCmd? && exists k: nat :: Joins(c, ts, k))
    else if level == 2 then
      Spells(c, ts, 1) || (c.BackCmd? && ts != [] && ts[|ts| - 1] == Op('&') && Spells(c.cmd, ts[..|ts| - 1], 2))
    else if level == 1 then Spells(c, ts, 0) || (c.PipeCmd? && exists k: nat :: Joins(c, ts, k))
    else
      || (c.ExecCmd? && ts == c.argv && OnlyWords(ts) && |ts| < MAXARGS)
      || (c.RedirCmd? && exists k: nat :: RedirectedAt(c, ts, k))
      || (|ts| >= 2 && ts[0] == Op('(') && ts[|ts| - 1] == Op(')') && Spells(c, ts[1..|ts| - 1], 3))
  }

  /** A redirection may follow: what there is ends with a word or a parenthesis, or is nothing. */
  predicate MayRedirect(ts: seq<Tok>) { ts != [] ==> ts[|ts| - 1].Word? || ts[|ts| - 1] == Op(')') }

  /** A command inside redirections that follow it. */
  lemma {:induction false} WrapSpells(c: Cmd, ts: seq<Tok>, items: seq<Item>)
    requires Spells(c, ts, 0) && MayRedirect(ts) && ItemsOk(items) && Args(items) == 0
    ensures Spells(Wrapped(c, items), ts + ItemsToks(items), 0)
    decreases |items|
  {
    if items == [] {
      assert ts + [] == ts;
    } else {
      assert ItemOk(items[0]);
      assert ts + [] == ts;
      OneRedirect(c, ts, items[0].op, items[0].w, []);
      var more := ts + [Op(items[0].op), items[0].w];
      assert ts + [Op(items[0].op), items[0].w] + [] == more;
      WrapSpells(Redirected(c, items[0].op, items[0].w), more, items[1..]);
      Regroup(ts, [Op(items[0].op), items[0].w], ItemsToks(items[1..]));
    }
  }

  lemma OneRedirect(c: Cmd, a: seq<Tok>, op: char, w: Tok, b: seq<Tok>)
    requires Spells(c, a + b, 0) && MayRedirect(a) && RedirOp(op) && w.Word? && OnlyWords(b)
    ensures Spells(Redirected(c, op, w), a + [Op(op), w] + b, 0)
  {
    var ts, k := a + [Op(op), w] + b, |a|;
    assert ts[..k] == a && ts[k + 2..] == b && ts[k + 1..] == [w] + b;
    assert RedirectedAt(Redirected(c, op, w), ts, k);
  }

  lemma {:induction false} WrappedLast(c: Cmd, items: seq<Item>, x: Item)
    ensures Wrapped(c, items + [x]) == if x.File? then Redirected(Wrapped(c, items), x.op, x.w) else Wrapped(c, items)
    decreases |items|
  {
    if items == [] {
      assert [] + [x] == [x] && [x][1..] == [];
    } else {
      var d := if items[0].File? then Redirected(c, items[0].op, items[0].w) else c;
      WrappedLast(d, items[1..], x);
      assert (items + [x])[1..] == items[1..] + [x] && (items + [x])[0] == items[0];
    }
  }

  lemma {:induction false} ItemsToksLast(items: seq<Item>, x: Item)
    ensures ItemsToks(items + [x]) == ItemsToks(items) + ItemToks(x)
    decreases |items|
  {
    if items == [] {
      assert [] + [x] == [x] && [x][1..] == [] && ItemToks(x) + [] == ItemToks(x);
    } else {
      ItemsToksLast(items[1..], x);
      assert (items + [x])[1..] == items[1..] + [x] && (items + [x])[0] == items[0];
      Regroup(ItemToks(items[0]), ItemsToks(items[1..]), ItemToks(x));
    }
  }

  lemma {:induction false} ItemsEnd(items: seq<Item>)
    requires ItemsOk(items)
    ensures MayRedirect(ItemsToks(items))
    decreases |items|
  {
    if items != [] {
      var n := |items| - 1;
      ItemsToksLast(items[..n], items[n]);
      assert items == items[..n] + [items[n]] && ItemOk(items[n]);
    }
  }

  /** A simple command whose items are followed by more words. */
  lemma {:induction false} ItemsSpell(items: seq<Item>, more: seq<Tok>)
    requires ItemsOk(items) && OnlyWords(more) && |ArgWords(items) + more| < MAXARGS
    ensures Spells(Wrapped(ExecCmd(ArgWords(items) + more), items), ItemsToks(items) + more, 0)
    decreases |items|, 0
  {
    if items == [] {
      assert [] + more == more;
    } else {
      var n := |items| - 1;
      var front, x := items[..n], items[n];
      assert items == front + [x] && ItemOk(x);
      ItemsToksLast(front, x);
      ArgsAppend(front, [x]);
      WrappedLast(ExecCmd(ArgWords(items) + more), front, x);
      if x.Arg? {
        ArgSpells(front, x, more);
      } else {
        FileSpells(front, x, more);
      }
    }
  }

  lemma {:induction false} ArgSpells(front: seq<Item>, x: Item, more: seq<Tok>)
    requires ItemsOk(front) && ItemOk(x) && x.Arg? && OnlyWords(more) && |ArgWords(front) + ArgWords([x]) + more| < MAXARGS
    ensures Spells(Wrapped(ExecCmd(ArgWords(front) + ArgWords([x]) + more), front), ItemsToks(front) + ItemToks(x) + more, 0)
    decreases |front|, 1
  {
    assert ArgWords([x]) == [x.w] + ArgWords([]) == [x.w];
    Regroup(ArgWords(front), [x.w], more);
    Regroup(ItemsToks(front), [x.w], more);
    ItemsSpell(front, [x.w] + more);
  }

  lemma {:induction false} FileSpells(front: seq<Item>, x: Item, more: seq<Tok>)
    requires ItemsOk(front) && ItemOk(x) && x.File? && OnlyWords(more) && |ArgWords(front) + ArgWords([x]) + more| < MAXARGS
    ensures var c := Wrapped(ExecCmd(ArgWords(front) + ArgWords([x]) + more), front);
      Spells(Redirected(c, x.op, x.w), ItemsToks(front) + ItemToks(x) + more, 0)
    decreases |front|, 1
  {
    assert ArgWords([x]) == [] + ArgWords([]);
    assert ArgWords(front) + [] == ArgWords(front);
    ItemsSpell(front, more);
    ItemsEnd(front);
    OneRedirect(Wrapped(ExecCmd(ArgWords(front) + more), front), ItemsToks(front), x.op, x.w, more);
  }

  lemma {:induction false} ArgsCount(items: seq<Item>)
    ensures |ArgWords(items)| == Args(items)
    decreases |items|
  {
    if items != [] { ArgsCount(items[1..]); }
  }

  lemma {:induction false} BacksSpell(c: Cmd, ts: seq<Tok>, n: nat)
    requires Spells(c, ts, 2)
    ensures Spells(Backs(c, n), ts + Amps(n), 2)
  {
    if n == 0 {
      assert ts + Amps(0) == ts;
    } else {
      BacksSpell(c, ts, n - 1);
      var all := ts + Amps(n);
      assert all[|all| - 1] == Op('&') && all[..|all| - 1] == ts + Amps(n - 1);
    }
  }

  /** The command of a tree is spelt by the tokens of the tree. */
  lemma {:induction false} LineSpells(l: Line)
    requires LineOk(l)
    ensures Spells(LineCmd(l), LineToks(l), 3)
    decreases l, 3
  {
    PipeSpells(l.pipe);
    BacksSpell(PipeCmdOf(l.pipe), PipeToks(l.pipe), l.amps);
    if l.More? {
      LineSpells(l.rest);
      var ts, k := LineToks(l), |PipeToks(l.pipe) + Amps(l.amps)|;
      assert ts[..k] == PipeToks(l.pipe) + Amps(l.amps) && ts[k + 1..] == LineToks(l.rest);
      assert Joins(LineCmd(l), ts, k);
    }
  }

  lemma {:induction false} PipeSpells(p: Pipe)
    requires PipeOk(p)
    ensures Spells(PipeCmdOf(p), PipeToks(p), 1)
    decreases p, 2
  {
    ExecSpells(p.exec);
    if p.Piped? {
      PipeSpells(p.rest);
      var ts, k := PipeToks(p), |ExecToks(p.exec)|;
      assert ts[..k] == ExecToks(p.exec) && ts[k + 1..] == PipeToks(p.rest);
      assert Joins(PipeCmdOf(p), ts, k);
    }
  }

  lemma {:induction false} ExecSpells(e: Exec)
    requires ExecOk(e)
    ensures Spells(ExecCmdOf(e), ExecToks(e), 0)
    decreases e, 1
  {
    match e
    case Block(l, rs) =>
      LineSpells(l);
      var ts := [Op('(')] + LineToks(l) + [Op(')')];
      assert ts[1..|ts| - 1] == LineToks(l) && ts[|ts| - 1] == Op(')');
      WrapSpells(LineCmd(l), ts, rs);
    case Simple(items) =>
      ArgsCount(items);
      assert ArgWords(items) + [] == ArgWords(items);
      ItemsSpell(items, []);
      assert ItemsToks(items) + [] == ItemsToks(items) && ArgWords(items) + [] == ArgWords(items);
  }

  // Back from the spelling to a tree.

  function ToItems(ts: seq<Tok>): (r: seq<Item>)
    ensures |r| == |ts| && forall k :: 0 <= k < |r| ==> r[k] == Arg(ts[k])
  {
    seq(|ts|, k requires 0 <= k < |ts| => Arg(ts[k]))
  }

  lemma {:induction false} PlainItems(ts: seq<Tok>, c: Cmd)
    ensures ItemsToks(ToItems(ts)) == ts && ArgWords(ToItems(ts)) == ts && Wrapped(c, ToItems(ts)) == c
    ensures Files(ToItems(ts)) == []
    decreases |ts|
  {
    if ts != [] {
      PlainItems(ts[1..], c);
      assert ToItems(ts)[1..] == ToItems(ts[1..]);
      Front(ts);
    }
  }

  lemma {:induction false} ItemsToksAppend(a: seq<Item>, b: seq<Item>)
    ensures ItemsToks(a + b) == ItemsToks(a) + ItemsToks(b)
    decreases |a|
  {
    if a == [] {
      assert a + b == b;
    } else {
      ItemsToksAppend(a[1..], b);
      assert (a + b)[1..] == a[1..] + b && (a + b)[0] == a[0];
      Regroup(ItemToks(a[0]), ItemsToks(a[1..]), ItemsToks(b));
    }
  }

  /** A simple command's tokens that end with words: the items that are those words come last. */
  lemma {:induction false} SplitItems(items: seq<Item>, a: seq<Tok>, b: seq<Tok>) returns (front: seq<Item>)
    requires ItemsOk(items) && ItemsToks(items) == a + b && OnlyWords(b) && MayRedirect(a)
    ensures ItemsOk(front) && ItemsToks(front) == a && items == front + ToItems(b)
    decreases |items|
  {
    if b == [] {
      front := items;
      assert a + b == a && items + ToItems(b) == items;
    } else {
      LastIsWord(items, a, b);
      var n, m := |items| - 1, |b| - 1;
      front := SplitItems(items[..n], a, b[..m]);
      Rejoin(items, front, b);
    }
  }

  lemma Rejoin(items: seq<Item>, front: seq<Item>, b: seq<Tok>)
    requires items != [] && b != [] && items[|items| - 1] == Arg(b[|b| - 1])
    requires items[..|items| - 1] == front + ToItems(b[..|b| - 1])
    ensures items == front + ToItems(b)
  {
    var n, m := |items| - 1, |b| - 1;
    assert ToItems(b) == ToItems(b[..m]) + [items[n]];
    assert items == items[..n] + [items[n]];
    assert (front + ToItems(b[..m])) + [items[n]] == front + (ToItems(b[..m]) + [items[n]]);
  }

  lemma {:induction false} LastIsWord(items: seq<Item>, a: seq<Tok>, b: seq<Tok>)
    requires ItemsOk(items) && ItemsToks(items) == a + b && OnlyWords(b) && MayRedirect(a) && b != []
    ensures items != [] && items[|items| - 1] == Arg(b[|b| - 1])
    ensures ItemsToks(items[..|items| - 1]) == a + b[..|b| - 1]
  {
    assert items != [];
    var n, m := |items| - 1, |b| - 1;
    var x := items[n];
    assert items == items[..n] + [x] && ItemOk(x);
    ItemsToksLast(items[..n], x);
    if x.File? { FileBefore(ItemsToks(items[..n]), x, a, b); }
    LastTok(ItemsToks(items[..n]), x.w, a, b);
  }

  lemma LastTok(ts: seq<Tok>, w: Tok, a: seq<Tok>, b: seq<Tok>)
    requires ts + [w] == a + b && b != []
    ensures w == b[|b| - 1] && ts == a + b[..|b| - 1]
  {
    var all := a + b;
    assert all[|all| - 1] == b[|b| - 1] && all[..|all| - 1] == a + b[..|b| - 1];
    assert (ts + [w])[|ts|] == w && (ts + [w])[..|ts|] == ts;
  }

  lemma FileBefore(ts: seq<Tok>, x: Item, a: seq<Tok>, b: seq<Tok>)
    requires ItemOk(x) && x.File? && ts + ItemToks(x) == a + b && b != []
    ensures !(OnlyWords(b) && MayRedirect(a))
  {
    var all := a + b;
    assert all[|all| - 2] == Op(x.op);
    if |b| == 1 { assert all[|all| - 2] == a[|a| - 1]; } else { assert all[|all| - 2] == b[|b| - 2]; }
  }

  lemma FitsOp(c: Cmd, t: Tok, mode: nat, fd: nat, w: Tok)
    requires RedirFits(t, mode, fd)
    ensures t.Op? && RedirOp(t.c) && Redirected(c, t.c, w) == RedirCmd(c, w, mode, fd)
  {
  }

  lemma {:induction false} TreeOfLine(c: Cmd, ts: seq<Tok>) returns (l: Line)
    requires Spells(c, ts, 3)
    ensures LineOk(l) && LineToks(l) == ts && LineCmd(l) == c
    decreases |ts|, 4
  {
    var p, n;
    if Spells(c, ts, 2) {
      p, n := TreeOfPart(c, ts);
      l := Last(p, n);
    } else {
      var k: nat :| Joins(c, ts, k);
      p, n := TreeOfPart(c.left, ts[..k]);
      var rest := TreeOfLine(c.right, ts[k + 1..]);
      l := More(p, n, rest);
      assert ts == ts[..k] + [ts[k]] + ts[k + 1..];
    }
  }

  lemma {:induction false} TreeOfPart(c: Cmd, ts: seq<Tok>) returns (p: Pipe, n: nat)
    requires Spells(c, ts, 2)
    ensures PipeOk(p) && PipeToks(p) + Amps(n) == ts && Backs(PipeCmdOf(p), n) == c
    decreases |ts|, 3
  {
    if Spells(c, ts, 1) {
      p := TreeOfPipe(c, ts);
      n := 0;
      assert PipeToks(p) + Amps(0) == ts;
    } else {
      var m := |ts| - 1;
      p, n := TreeOfPart(c.cmd, ts[..m]);
      assert Amps(n + 1) == Amps(n) + [Op('&')];
      assert ts == ts[..m] + [ts[m]];
      n := n + 1;
    }
  }

  lemma {:induction false} TreeOfPipe(c: Cmd, ts: seq<Tok>) returns (p: Pipe)
    requires Spells(c, ts, 1)
    ensures PipeOk(p) && PipeToks(p) == ts && PipeCmdOf(p) == c
    decreases |ts|, 2
  {
    if Spells(c, ts, 0) {
      var e := TreeOfExec(c, ts);
      p := One(e);
    } else {
      var k: nat :| Joins(c, ts, k);
      var e := TreeOfExec(c.left, ts[..k]);
      var rest := TreeOfPipe(c.right, ts[k + 1..]);
      p := Piped(e, rest);
      assert ts == ts[..k] + [ts[k]] + ts[k + 1..];
    }
  }

  lemma {:induction false} TreeOfExec(c: Cmd, ts: seq<Tok>) returns (e: Exec)
    requires Spells(c, ts, 0)
    ensures ExecOk(e) && ExecToks(e) == ts && ExecCmdOf(e) == c
    decreases |ts|, 1
  {
    if c.ExecCmd? && ts == c.argv && OnlyWords(ts) && |ts| < MAXARGS {
      PlainItems(ts, c);
      ArgsCount(ToItems(ts));
      e := Simple(ToItems(ts));
    } else if k: nat :| c.RedirCmd? && RedirectedAt(c, ts, k) {
      var inner := TreeOfExec(c.cmd, ts[..k] + ts[k + 2..]);
      e := WithRedirect(inner, c, ts, k);
    } else {
      var l := TreeOfLine(c, ts[1..|ts| - 1]);
      e := Block(l, []);
      assert ts == [ts[0]] + ts[1..|ts| - 1] + [ts[|ts| - 1]];
      assert ExecToks(e) == ts + [];
    }
  }

  /** The tree with the last redirection put back. */
  lemma WithRedirect(inner: Exec, c: Cmd, ts: seq<Tok>, k: nat) returns (e: Exec)
    requires ExecOk(inner) && c.RedirCmd? && RedirectedAt(c, ts, k)
    requires ExecToks(inner) == ts[..k] + ts[k + 2..] && ExecCmdOf(inner) == c.cmd
    ensures ExecOk(e) && ExecToks(e) == ts && ExecCmdOf(e) == c
  {
    var a, b, x := ts[..k], ts[k + 2..], File(ts[k].c, c.file);
    FitsOp(c.cmd, ts[k], c.mode, c.fd, c.file);
    assert ts[k + 1..] == [c.file] + b && ts == a + [ts[k], c.file] + b;
    assert ts[k + 1..][0] == c.file;
    assert OnlyWords(b) by { assert forall j :: 0 <= j < |b| ==> b[j] == ts[k + 1..][j + 1]; }
    assert MayRedirect(a) by { assert a != [] ==> a[|a| - 1] == ts[k - 1]; }
    match inner
    case Simple(items) => e := FileIntoSimple(items, a, b, x, c.cmd);
    case Block(l, rs) => e := FileAfterBlock(l, rs, a, b, x, c.cmd);
  }

  lemma FileIntoSimple(items: seq<Item>, a: seq<Tok>, b: seq<Tok>, x: Item, c: Cmd) returns (e: Exec)
    requires ExecOk(Simple(items)) && ItemsToks(items) == a + b && OnlyWords(b) && MayRedirect(a)
    requires ItemOk(x) && x.File? && ExecCmdOf(Simple(items)) == c
    ensures ExecOk(e) && ExecToks(e) == a + ItemToks(x) + b && ExecCmdOf(e) == Redirected(c, x.op, x.w)
  {
    var front := SplitItems(items, a, b);
    var tail := ToItems(b);
    e := Simple(front + [x] + tail);
    PlainItems(b, c);
    FileIn(front, x, tail, ExecCmd(ArgWords(items)));
    FileInToks(front, x, tail);
    ArgsCount(items);
    ArgsCount(front + [x] + tail);
  }

  lemma FileInToks(front: seq<Item>, x: Item, tail: seq<Item>)
    requires ItemsOk(front + tail) && ItemOk(x)
    ensures ItemsToks(front + [x] + tail) == ItemsToks(front) + ItemToks(x) + ItemsToks(tail) && ItemsOk(front + [x] + tail)
  {
    ItemsToksLast(front, x);
    ItemsToksAppend(front + [x], tail);
    var all := front + [x] + tail;
    forall k | 0 <= k < |all| ensures ItemOk(all[k]) {
      if k != |front| { assert ItemOk((front + tail)[if k < |front| then k else k - 1]); }
    }
  }

  /** A redirection among items wraps what the others make, if only words follow it. */
  lemma FileIn(front: seq<Item>, x: Item, tail: seq<Item>, c: Cmd)
    requires x.File? && Files(tail) == []
    ensures Wrapped(c, front + [x] + tail) == Redirected(Wrapped(c, front + tail), x.op, x.w)
    ensures ArgWords(front + [x] + tail) == ArgWords(front + tail)
  {
    ItemsAppend(front, tail);
    ItemsAppend(front, [x]);
    ItemsAppend(front + [x], tail);
    assert Files([x]) == [x] + Files([]) && ArgWords([x]) == [] + ArgWords([]);
    assert Files(front) + [] == Files(front) && Files(front + [x]) + [] == Files(front) + [x];
    assert ArgWords(front) + [] == ArgWords(front);
    WrappedFiles(c, front + tail);
    WrappedFiles(c, front + [x] + tail);
    WrappedLast(c, Files(front), x);
  }

  lemma FileAfterBlock(l: Line, rs: seq<Item>, a: seq<Tok>, b: seq<Tok>, x: Item, c: Cmd) returns (e: Exec)
    requires ExecOk(Block(l, rs)) && ExecToks(Block(l, rs)) == a + b && OnlyWords(b) && MayRedirect(a)
    requires ItemOk(x) && x.File? && ExecCmdOf(Block(l, rs)) == c
    ensures ExecOk(e) && ExecToks(e) == a + ItemToks(x) + b && ExecCmdOf(e) == Redirected(c, x.op, x.w)
  {
    if b != [] { NoWordsAfter(l, rs, a, b); }
    e := Block(l, rs + [x]);
    ArgsCount(rs);
    ArgsCount(rs + [x]);
    ArgsAppend(rs, [x]);
    assert ArgWords([x]) == [] + ArgWords([]);
    WrappedLast(LineCmd(l), rs, x);
    ItemsToksLast(rs, x);
    Regroup([Op('(')] + LineToks(l) + [Op(')')], ItemsToks(rs), ItemToks(x));
    assert a + b == a && a + ItemToks(x) + b == a + ItemToks(x);
  }

  lemma {:induction false} NoWordsAfter(l: Line, rs: seq<Item>, a: seq<Tok>, b: seq<Tok>)
    requires ItemsOk(rs) && Args(rs) == 0 && ExecToks(Block(l, rs)) == a + b && b != []
    ensures !(OnlyWords(b) && MayRedirect(a))
  {
    var h := [Op('(')] + LineToks(l) + [Op(')')];
    if rs == [] {
      assert h + [] == h;
      LastTok([Op('(')] + LineToks(l), Op(')'), a, b);
    } else {
      var n := |rs| - 1;
      var x := rs[n];
      assert rs == rs[..n] + [x] && ItemOk(x);
      OnlyFiles(rs);
      FilesAreFiles(rs, n);
      ItemsToksLast(rs[..n], x);
      Regroup(h, ItemsToks(rs[..n]), ItemToks(x));
      FileBefore(h + ItemsToks(rs[..n]), x, a, b);
    }
  }

  lemma {:induction false} FilesAreFiles(items: seq<Item>, k: nat)
    requires Files(items) == items && k < |items|
    ensures items[k].File?
    decreases |items|
  {
    FewFiles(items[1..]);
    assert items[0].File?;
    if k > 0 {
      assert Files(items)[1..] == Files(items[1..]);
      FilesAreFiles(items[1..], k - 1);
    }
  }

  lemma {:induction false} FewFiles(items: seq<Item>)
    ensures |Files(items)| <= |items|
    decreases |items|
  {
    if items != [] { FewFiles(items[1..]); }
  }

  /** A token string that a tree derives spells the tree's command and no other. */
  lemma OneSpelling(l: Line)
    requires LineOk(l)
    ensures forall c :: Spells(c, LineToks(l), 3) <==> c == LineCmd(l)
  {
    LineSpells(l);
    forall c | Spells(c, LineToks(l), 3) ensures c == LineCmd(l) {
      var m := TreeOfLine(c, LineToks(l));
      NoTwoTrees(l, m);
    }
  }

  function Count(ts: seq<Tok>, op: char): nat {
    if ts == [] then 0 else (if ts[0] == Op(op) then 1 else 0) + Count(ts[1..], op)
  }

  lemma {:induction false} CountAppend(a: seq<Tok>, b: seq<Tok>, op: char)
    ensures Count(a + b, op) == Count(a, op) + Count(b, op)
    decreases |a|
  {
    if a == [] {
      assert a + b == b;
    } else {
      CountAppend(a[1..], b, op);
      assert (a + b)[1..] == a[1..] + b && (a + b)[0] == a[0];
    }
  }

  lemma {:induction false} WordsAreNoOps(ts: seq<Tok>, op: char)
    requires OnlyWords(ts)
    ensures Count(ts, op) == 0
    decreases |ts|
  {
    if ts != [] { WordsAreNoOps(ts[1..], op); }
  }

  /** The nodes of the command that an operator stands for. */
  function Nodes(c: Cmd, op: char): nat {
    match c
    case ExecCmd(_) => 0
    case RedirCmd(d, _, mode, fd) => Nodes(d, op) + if RedirFits(Op(op), mode, fd) then 1 else 0
    case PipeCmd(l, r) => Nodes(l, op) + Nodes(r, op) + if op == '|' then 1 else 0
    case ListCmd(l, r) => Nodes(l, op) + Nodes(r, op) + if op == ';' then 1 else 0
    case BackCmd(d) => Nodes(d, op) + if op == '&' then 1 else 0
  }

  /** There is a node for every operator, and none more. */
  lemma {:induction false} OpsAreNodes(c: Cmd, ts: seq<Tok>, level: nat, op: char)
    requires Spells(c, ts, level) && op != '(' && op != ')'
    ensures Nodes(c, op) == Count(ts, op)
    decreases |ts|, level + 1
  {
    if level >= 3 && Spells(c, ts, 2) {
      OpsAreNodes(c, ts, 2, op);
    } else if level == 2 && Spells(c, ts, 1) {
      OpsAreNodes(c, ts, 1, op);
    } else if level == 1 && Spells(c, ts, 0) {
      OpsAreNodes(c, ts, 0, op);
    } else if level == 1 || level >= 3 {
      var k: nat :| Joins(c, ts, k);
      JoinNodes(c, ts, k, level, op);
    } else if level == 2 {
      var m := |ts| - 1;
      OpsAreNodes(c.cmd, ts[..m], 2, op);
      CountAppend(ts[..m], [ts[m]], op);
      assert ts == ts[..m] + [ts[m]];
    } else if c.ExecCmd? && ts == c.argv && OnlyWords(ts) {
      WordsAreNoOps(ts, op);
    } else if k: nat :| c.RedirCmd? && RedirectedAt(c, ts, k) {
      OpsAreNodes(c.cmd, ts[..k] + ts[k + 2..], 0, op);
      CountWithout(ts, k, op);
      assert ts[k + 1..][0].Word?;
    } else {
      OpsAreNodes(c, ts[1..|ts| - 1], 3, op);
      CountInside(ts, op);
    }
  }

  lemma CountWithout(ts: seq<Tok>, k: nat, op: char)
    requires k + 1 < |ts| && ts[k + 1].Word?
    ensures Count(ts, op) == Count(ts[..k] + ts[k + 2..], op) + if ts[k] == Op(op) then 1 else 0
  {
    var a, x, b := ts[..k], [ts[k], ts[k + 1]], ts[k + 2..];
    CountAppend(a, b, op);
    CountAppend(a, x + b, op);
    CountAppend(x, b, op);
    assert ts == a + (x + b);
    assert x[1..] == [ts[k + 1]] && [ts[k + 1]][1..] == [];
  }

  lemma CountInside(ts: seq<Tok>, op: char)
    requires |ts| >= 2 && ts[0] != Op(op) && ts[|ts| - 1] != Op(op)
    ensures Count(ts, op) == Count(ts[1..|ts| - 1], op)
  {
    var inner, last := ts[1..|ts| - 1], [ts[|ts| - 1]];
    CountAppend([ts[0]], inner + last, op);
    CountAppend(inner, last, op);
    assert ts == [ts[0]] + (inner + last);
  }

  lemma {:induction false} JoinNodes(c: Cmd, ts: seq<Tok>, k: nat, level: nat, op: char)
    requires (c.ListCmd? || c.PipeCmd?) && Joins(c, ts, k) && op != '(' && op != ')'
    ensures Nodes(c, op) == Count(ts, op)
    decreases |ts|, 0
  {
    OpsAreNodes(c.left, ts[..k], if c.ListCmd? then 2 else 0, op);
    OpsAreNodes(c.right, ts[k + 1..], if c.ListCmd? then 3 else 1, op);
    CountAppend(ts[..k], [ts[k]] + ts[k + 1..], op);
    CountAppend([ts[k]], ts[k + 1..], op);
    assert ts == ts[..k] + ([ts[k]] + ts[k + 1..]);
  }

  /** Words stand in the line in this order. */
  predicate Before(v: Tok, w: Tok) { v.Word? && w.Word? ==> v.q < w.q }

  predicate Sorted(ts: seq<Tok>) { forall i, j :: 0 <= i < j < |ts| ==> Before(ts[i], ts[j]) }

  /** What the left of a pipe or a list says comes before what the right says, and argv is in order. */
  predicate Ordered(c: Cmd) {
    match c
    case ExecCmd(argv) => Sorted(argv)
    case RedirCmd(d, _, _, _) => Ordered(d)
    case PipeCmd(l, r) => Ordered(l) && Ordered(r) && forall v, w :: v in Words(l) && w in Words(r) ==> Before(v, w)
    case ListCmd(l, r) => Ordered(l) && Ordered(r) && forall v, w :: v in Words(l) && w in Words(r) ==> Before(v, w)
    case BackCmd(d) => Ordered(d)
  }

  lemma {:induction false} SpeltInOrder(c: Cmd, ts: seq<Tok>, level: nat)
    requires Spells(c, ts, level) && Sorted(ts)
    ensures Ordered(c) && forall w :: w in Words(c) ==> w in ts
    decreases |ts|, level + 1
  {
    if level >= 3 && Spells(c, ts, 2) {
      SpeltInOrder(c, ts, 2);
    } else if level == 2 && Spells(c, ts, 1) {
      SpeltInOrder(c, ts, 1);
    } else if level == 1 && Spells(c, ts, 0) {
      SpeltInOrder(c, ts, 0);
    } else if level == 1 || level >= 3 {
      var k: nat :| Joins(c, ts, k);
      SpeltInOrder(c.left, ts[..k], if c.ListCmd? then 2 else 0);
      SpeltInOrder(c.right, ts[k + 1..], if c.ListCmd? then 3 else 1);
      forall v, w | v in Words(c.left) && w in Words(c.right) ensures Before(v, w) {
        var i :| 0 <= i < k && ts[..k][i] == v;
        var j :| 0 <= j < |ts| - k - 1 && ts[k + 1..][j] == w;
        assert Before(ts[i], ts[k + 1 + j]);
      }
    } else if level == 2 {
      SpeltInOrder(c.cmd, ts[..|ts| - 1], 2);
    } else if c.ExecCmd? && ts == c.argv && OnlyWords(ts) {
    } else if k: nat :| c.RedirCmd? && RedirectedAt(c, ts, k) {
      var rest := ts[..k] + ts[k + 2..];
      forall i, j | 0 <= i < j < |rest| ensures Before(rest[i], rest[j]) {
        assert Before(ts[if i < k then i else i + 2], ts[if j < k then j else j + 2]);
      }
      SpeltInOrder(c.cmd, rest, 0);
    } else {
      SpeltInOrder(c, ts[1..|ts| - 1], 3);
    }
  }

  lemma {:induction false} WrappedFiles(c: Cmd, items: seq<Item>)
    ensures Wrapped(c, items) == Wrapped(c, Files(items))
    decreases |items|
  {
    if items != [] {
      if items[0].File? {
        assert Files(items) == [items[0]] + Files(items[1..]);
        WrappedFiles(Redirected(c, items[0].op, items[0].w), items[1..]);
      } else {
        assert [] + Files(items[1..]) == Files(items[1..]);
        WrappedFiles(c, items[1..]);
      }
    }
  }

  lemma {:induction false} ArgsAppend(a: seq<Item>, b: seq<Item>)
    ensures ArgWords(a + b) == ArgWords(a) + ArgWords(b)
    decreases |a|
  {
    if a == [] {
      assert a + b == b;
    } else {
      ArgsAppend(a[1..], b);
      assert (a + b)[1..] == a[1..] + b && (a + b)[0] == a[0];
      Regroup(if a[0].Arg? then [a[0].w] else [], ArgWords(a[1..]), ArgWords(b));
    }
  }

  lemma {:induction false} FilesAppend(a: seq<Item>, b: seq<Item>)
    ensures Files(a + b) == Files(a) + Files(b)
    decreases |a|
  {
    if a == [] {
      assert a + b == b;
    } else {
      FilesAppend(a[1..], b);
      assert (a + b)[1..] == a[1..] + b && (a + b)[0] == a[0];
      var h := if a[0].File? then [a[0]] else [];
      assert (h + Files(a[1..])) + Files(b) == h + (Files(a[1..]) + Files(b));
    }
  }

  lemma ItemsAppend(a: seq<Item>, b: seq<Item>)
    ensures ArgWords(a + b) == ArgWords(a) + ArgWords(b) && Files(a + b) == Files(a) + Files(b)
  {
    ArgsAppend(a, b);
    FilesAppend(a, b);
  }

  /** parseexec reads runs of redirections between words. */
  lemma {:induction false} ItemsViaRedirs(ts: seq<Tok>, argc: nat)
    ensures var r := ParseRedirs(ts);
      if r.Syntax? then ParseItems(ts, argc).Syntax? else
        var i := ParseItems(r.rest, argc);
        ParseItems(ts, argc) == (if i.Syntax? then Syntax else Ok(r.tree + i.tree, i.rest))
    decreases |ts|
  {
    if StartsRedir(ts) {
      if |ts| >= 2 && ts[1].Word? {
        ItemsViaRedirs(ts[2..], argc);
        var r := ParseRedirs(ts[2..]);
        if r.Ok? && ParseItems(r.rest, argc).Ok? {
          var one, i := [File(ts[0].c, ts[1])], ParseItems(r.rest, argc).tree;
          assert one + (r.tree + i) == one + r.tree + i;
        }
      }
    } else {
      var i := ParseItems(ts, argc);
      if i.Ok? { assert [] + i.tree == i.tree; }
    }
  }

  // ----- The code -----

  ghost predicate NoNul(s: string) { forall k :: 0 <= k < |s| ==> s[k] != NUL }

  lemma SkipTwice(s: string, i: nat)
    requires i <= |s|
    ensures Skip(s, Skip(s, i)) == Skip(s, i) && Toks(s, Skip(s, i)) == Toks(s, i)
  {
  }

  /** What the next character tells about the next token. */
  lemma NextToken(s: string, i: nat)
    requires i <= |s|
    ensures var j, ts := Skip(s, i), Toks(s, i);
      && (j == |s| <==> ts == [])
      && (j < |s| ==> ts[0] == Lexeme(s, j).0 && ts[1..] == Toks(s, Lexeme(s, j).1))
      && (j < |s| ==> (StartsRedir(ts) <==> s[j] == '<' || s[j] == '>'))
      && (forall c :: c in "|&;()" ==> (Starts(ts, c) <==> j < |s| && s[j] == c))
  {
  }

  /** The loop over white space that peek and gettoken begin and gettoken ends with. */
  method SkipWhite(s: string, ps: nat) returns (p: nat)
    requires ps <= |s|
    ensures p == Skip(s, ps) && Toks(s, p) == Toks(s, ps) && Skip(s, p) == p
  {
    p := ps;
    while p < |s| && White(s[p])
      invariant ps <= p <= |s| && Skip(s, p) == Skip(s, ps)
    {
      p := p + 1;
    }
    SkipTwice(s, ps);
  }

  method Peek(s: string, ps: nat, toks: string) returns (b: bool, p: nat)
    requires ps <= |s|
    ensures p == Skip(s, ps) && (b <==> p < |s| && s[p] in toks)
    ensures Toks(s, p) == Toks(s, ps)
  {
    p := SkipWhite(s, ps);
    b := p < |s| && s[p] in toks;
  }

  /** The switch of gettoken: the code of the token at q, and where it ends. */
  method Lex(s: string, q: nat) returns (ret: char, eq: nat)
    requires q < |s| && NoNul(s) && !White(s[q])
    ensures ret != NUL && eq == Lexeme(s, q).1 && Lexeme(s, q).0 == if ret == 'a' then Word(q, eq) else Op(ret)
  {
    if s[q] == '>' {
      ret, eq := '>', q + 1;
      if eq < |s| && s[eq] == '>' { ret, eq := '+', eq + 1; }
    } else if Symbol(s[q]) {
      ret, eq := s[q], q + 1;
    } else {
      ret, eq := 'a', q;
      while eq < |s| && WordChar(s[eq])
        invariant q <= eq <= |s| && WordEnd(s, eq) == WordEnd(s, q)
      {
        eq := eq + 1;
      }
    }
  }

  /** ret is the source's code for the token: 0, the operator, '+' for >>, or 'a' for a word. */
  method Gettoken(s: string, ps: nat) returns (ret: char, q: nat, eq: nat, p: nat)
    requires ps <= |s| && NoNul(s)
    ensures ps <= q <= eq <= p <= |s|
    ensures ret == NUL <==> Toks(s, ps) == []
    ensures ret != NUL ==> ps < p && Toks(s, ps) != [] && Toks(s, p) == Toks(s, ps)[1..]
    ensures ret != NUL ==> Toks(s, ps)[0] == if ret == 'a' then Word(q, eq) else Op(ret)
  {
    NextToken(s, ps);
    q := SkipWhite(s, ps);
    if q == |s| {
      ret, eq := NUL, q;
    } else {
      ret, eq := Lex(s, q);
    }
    p := SkipWhite(s, eq);
  }

  datatype Outcome<T> = Good(v: T) | Panic

  /** A parser that has turned `ts` into `done` with `now` left to read will do as well on `now` as it does on `ts`. */
  ghost predicate RedirsSoFar(ts: seq<Tok>, done: seq<Item>, now: seq<Tok>) {
    var t, u := ParseRedirs(ts), ParseRedirs(now);
    (t.Ok? <==> u.Ok?) && (t.Ok? ==> t.tree == done + u.tree && t.rest == u.rest)
  }

  lemma RedirOne(ts: seq<Tok>, done: seq<Item>, now: seq<Tok>, rest: seq<Tok>)
    requires RedirsSoFar(ts, done, now) && StartsRedir(now) && |now| >= 2 && now[1].Word? && rest == now[1..][1..]
    ensures RedirsSoFar(ts, done + [File(now[0].c, now[1])], rest)
  {
    assert rest == now[2..];
    var u := ParseRedirs(rest);
    if u.Ok? { assert done + ([File(now[0].c, now[1])] + u.tree) == done + [File(now[0].c, now[1])] + u.tree; }
  }

  /** The redirections that follow, in order; the caller wraps its command in them. */
  method Parseredirs(s: string, ps: nat) returns (r: Outcome<seq<Item>>, p: nat)
    requires ps <= |s| && NoNul(s)
    ensures ps <= p <= |s|
    ensures var t := ParseRedirs(Toks(s, ps));
      (r.Good? <==> t.Ok?) && (r.Good? ==> r.v == t.tree && Toks(s, p) == t.rest)
  {
    ghost var ts := Toks(s, ps);
    var files: seq<Item> := [];
    var b;
    b, p := PeekRedir(s, ps);
    while b
      invariant ps <= p <= |s| && (b <==> StartsRedir(Toks(s, p)))
      invariant RedirsSoFar(ts, files, Toks(s, p))
      decreases |s| - p
    {
      ghost var now := Toks(s, p);
      var tok, _, _, p1 := Gettoken(s, p);
      var a, q, eq, p2 := Gettoken(s, p1);
      if a != 'a' { return Panic, p2; }
      RedirOne(ts, files, now, Toks(s, p2));
      files := files + [File(tok, Word(q, eq))];
      b, p := PeekRedir(s, p2);
    }
    r := Good(files);
  }

  /** peek(ps, es, "<>"). */
  method PeekRedir(s: string, ps: nat) returns (b: bool, p: nat)
    requires ps <= |s|
    ensures ps <= p <= |s| && Toks(s, p) == Toks(s, ps) && (b <==> StartsRedir(Toks(s, ps)))
  {
    NextToken(s, ps);
    b, p := Peek(s, ps, "<>");
  }

  /** peek for a single operator. */
  method PeekOp(s: string, ps: nat, c: char) returns (b: bool, p: nat)
    requires ps <= |s| && c in "|&;()"
    ensures ps <= p <= |s| && Toks(s, p) == Toks(s, ps) && (b <==> Starts(Toks(s, ps), c))
  {
    NextToken(s, ps);
    b, p := Peek(s, ps, [c]);
  }

  /** peek(ps, es, "|)&;"), which does not see the end of the input. */
  method PeekStop(s: string, ps: nat) returns (b: bool, p: nat)
    requires ps <= |s|
    ensures ps <= p <= |s| && Toks(s, p) == Toks(s, ps) && (b || Toks(s, ps) == [] <==> AtStop(Toks(s, ps)))
  {
    NextToken(s, ps);
    b, p := Peek(s, ps, "|)&;");
  }

  /** parseexec after `done`, which holds argc words, with `now` left to read. */
  ghost predicate ItemsSoFar(ts: seq<Tok>, done: seq<Item>, now: seq<Tok>, argc: nat) {
    var t, u := ParseItems(ts, 0), ParseItems(now, argc);
    (t.Ok? <==> u.Ok?) && (t.Ok? ==> t.tree == done + u.tree && t.rest == u.rest)
  }

  lemma ItemsRedirs(ts: seq<Tok>, done: seq<Item>, now: seq<Tok>, argc: nat)
    requires ItemsSoFar(ts, done, now, argc)
    ensures var r := ParseRedirs(now);
      if r.Ok? then ItemsSoFar(ts, done + r.tree, r.rest, argc) else ParseItems(ts, 0).Syntax?
  {
    ItemsViaRedirs(now, argc);
    var r := ParseRedirs(now);
    if r.Ok? {
      var i := ParseItems(r.rest, argc);
      if i.Ok? { assert done + (r.tree + i.tree) == done + r.tree + i.tree; }
    }
  }

  lemma ItemsArg(ts: seq<Tok>, done: seq<Item>, now: seq<Tok>, argc: nat)
    requires ItemsSoFar(ts, done, now, argc) && !StartsRedir(now) && !AtStop(now)
    ensures if now[0].Word? && argc + 1 < MAXARGS then ItemsSoFar(ts, done + [Arg(now[0])], now[1..], argc + 1)
            else ParseItems(ts, 0).Syntax?
  {
    if now[0].Word? && argc + 1 < MAXARGS {
      var u := ParseItems(now[1..], argc + 1);
      if u.Ok? { assert done + ([Arg(now[0])] + u.tree) == done + [Arg(now[0])] + u.tree; }
    }
  }

  /** parseredirs, and the test of parseexec's loop after it. */
  method RedirsThenStop(s: string, ps: nat, ghost ts: seq<Tok>, ghost done: seq<Item>, ghost argc: nat)
    returns (ok: bool, more: seq<Item>, stop: bool, p: nat)
    requires ps <= |s| && NoNul(s) && ItemsSoFar(ts, done, Toks(s, ps), argc)
    ensures ps <= p <= |s|
    ensures !ok ==> ParseItems(ts, 0).Syntax?
    ensures ok ==> ItemsSoFar(ts, done + more, Toks(s, p), argc) && !StartsRedir(Toks(s, p))
    ensures ok ==> ArgWords(done + more) == ArgWords(done) && Files(done + more) == Files(done) + more
    ensures ok ==> (stop || Toks(s, p) == [] <==> AtStop(Toks(s, p)))
  {
    ItemsRedirs(ts, done, Toks(s, ps), argc);
    var rs;
    rs, p := Parseredirs(s, ps);
    if rs.Panic? { return false, [], false, p; }
    RedirItems(Toks(s, ps), done, rs.v);
    ok, more := true, rs.v;
    stop, p := PeekStop(s, p);
  }

  /** gettoken in parseexec's loop. */
  method TakeArg(s: string, ps: nat, ghost ts: seq<Tok>, ghost done: seq<Item>, ghost argc: nat)
    returns (tok: char, w: Tok, p: nat)
    requires ps <= |s| && NoNul(s) && ItemsSoFar(ts, done, Toks(s, ps), argc) && !StartsRedir(Toks(s, ps))
    requires Toks(s, ps) == [] || !AtStop(Toks(s, ps))
    ensures ps <= p <= |s| && (tok == NUL <==> Toks(s, ps) == []) && (tok != NUL ==> ps < p)
    ensures tok == 'a' && argc + 1 < MAXARGS ==> ItemsSoFar(ts, done + [Arg(w)], Toks(s, p), argc + 1)
    ensures tok != NUL && !(tok == 'a' && argc + 1 < MAXARGS) ==> ParseItems(ts, 0).Syntax?
    ensures ArgWords(done + [Arg(w)]) == ArgWords(done) + [w] && Files(done + [Arg(w)]) == Files(done)
  {
    var q, eq;
    tok, q, eq, p := Gettoken(s, ps);
    w := Word(q, eq);
    if tok != NUL { ItemsArg(ts, done, Toks(s, ps), argc); }
    OneArg(done, w);
  }

  /** The body of parseexec's loop: one more word, and the redirections after it. */
  method NextArg(s: string, ps: nat, ghost ts: seq<Tok>, ghost done: seq<Item>, argc: nat)
    returns (end: bool, ok: bool, w: Tok, more: seq<Item>, stop: bool, p: nat)
    requires ps <= |s| && NoNul(s) && argc < MAXARGS && ItemsSoFar(ts, done, Toks(s, ps), argc)
    requires !StartsRedir(Toks(s, ps)) && (Toks(s, ps) == [] || !AtStop(Toks(s, ps)))
    ensures ps <= p <= |s| && (end <==> Toks(s, ps) == []) && (end ==> Toks(s, p) == []) && (!end ==> ps < p)
    ensures end ==> ItemsSoFar(ts, done, Toks(s, p), argc)
    ensures !end && !ok ==> ParseItems(ts, 0).Syntax?
    ensures !end && ok ==> argc + 1 < MAXARGS && ItemsSoFar(ts, done + [Arg(w)] + more, Toks(s, p), argc + 1)
    ensures !end && ok ==> ArgWords(done + [Arg(w)] + more) == ArgWords(done) + [w]
    ensures !end && ok ==> Files(done + [Arg(w)] + more) == Files(done) + more
    ensures !end && ok ==> !StartsRedir(Toks(s, p)) && (stop || Toks(s, p) == [] <==> AtStop(Toks(s, p)))
  {
    var tok;
    tok, w, p := TakeArg(s, ps, ts, done, argc);
    end, ok, more, stop := tok == NUL, false, [], false;
    if end { p := ps; return; }
    if tok != 'a' { return; }                                   // "syntax"
    if argc + 1 >= MAXARGS { return; }                          // "too many args"
    ok, more, stop, p := RedirsThenStop(s, p, ts, done + [Arg(w)], argc + 1);
  }

  /** argv and the redirections of a simple command. */
  method Parsesimple(s: string, ps: nat) returns (r: Outcome<Cmd>, p: nat)
    requires ps <= |s| && NoNul(s)
    ensures ps <= p <= |s|
    ensures var t := ParseItems(Toks(s, ps), 0);
      (r.Good? <==> t.Ok?) && (r.Good? ==> r.v == ExecCmdOf(Simple(t.tree)) && Toks(s, p) == t.rest)
  {
    ghost var ts, done := Toks(s, ps), [];
    var argv: seq<Tok> := [];
    NothingYet(ts);
    var ok, files, stop;
    ok, files, stop, p := RedirsThenStop(s, ps, ts, done, 0);
    if !ok { return Panic, p; }
    assert Files([]) + files == files;
    done := done + files;
    while !stop
      invariant ps <= p <= |s| && |argv| < MAXARGS
      invariant argv == ArgWords(done) && files == Files(done) && ItemsSoFar(ts, done, Toks(s, p), |argv|)
      invariant !StartsRedir(Toks(s, p)) && (stop || Toks(s, p) == [] <==> AtStop(Toks(s, p)))
      decreases |s| - p, !stop
    {
      var end, w, more;
      end, ok, w, more, stop, p := NextArg(s, p, ts, done, |argv|);
      if end { break; }
      if !ok { return Panic, p; }
      argv, files := argv + [w], files + more;
      done := done + [Arg(w)] + more;
    }
    Collected(ts, done, Toks(s, p), |argv|);
    r := Good(Wrapped(ExecCmd(argv), files));
  }

  lemma OneArg(done: seq<Item>, w: Tok)
    ensures ArgWords(done + [Arg(w)]) == ArgWords(done) + [w] && Files(done + [Arg(w)]) == Files(done)
  {
    ItemsAppend(done, [Arg(w)]);
    assert ArgWords([Arg(w)]) == [w] + ArgWords([]) && Files([Arg(w)]) == [] + Files([]);
  }

  lemma NothingYet(ts: seq<Tok>)
    ensures ItemsSoFar(ts, [], ts, 0) && ArgWords([]) == [] && Files([]) == []
  {
    var t := ParseItems(ts, 0);
    if t.Ok? { assert [] + t.tree == t.tree; }
  }

  lemma Collected(ts: seq<Tok>, done: seq<Item>, now: seq<Tok>, argc: nat)
    requires ItemsSoFar(ts, done, now, argc) && AtStop(now) && !StartsRedir(now)
    ensures ParseItems(ts, 0) == Ok(done, now)
    ensures Wrapped(ExecCmd(ArgWords(done)), Files(done)) == ExecCmdOf(Simple(done))
  {
    assert done + [] == done;
    WrappedFiles(ExecCmd(ArgWords(done)), done);
  }

  lemma RedirItems(ts: seq<Tok>, done: seq<Item>, rs: seq<Item>)
    requires ParseRedirs(ts).Ok? && ParseRedirs(ts).tree == rs
    ensures ArgWords(done + rs) == ArgWords(done) && Files(done + rs) == Files(done) + rs
    ensures !StartsRedir(ParseRedirs(ts).rest)
  {
    RedirsSound(ts);
    ItemsAppend(done, rs);
    OnlyFiles(rs);
    assert ArgWords(done) + [] == ArgWords(done);
  }

  lemma {:induction false} OnlyFiles(rs: seq<Item>)
    requires Args(rs) == 0
    ensures ArgWords(rs) == [] && Files(rs) == rs
    decreases |rs|
  {
    if rs != [] {
      OnlyFiles(rs[1..]);
      assert [rs[0]] + rs[1..] == rs;
    }
  }

  method Parseexec(s: string, ps: nat) returns (r: Outcome<Cmd>, p: nat)
    requires ps <= |s| && NoNul(s)
    ensures ps <= p <= |s|
    ensures var t := ParseExec(Toks(s, ps));
      (r.Good? <==> t.Ok?) && (r.Good? ==> r.v == ExecCmdOf(t.tree) && Toks(s, p) == t.rest)
    decreases |s| - ps, 1
  {
    var b;
    b, p := PeekOp(s, ps, '(');
    if b {
      r, p := Parseblock(s, p);
    } else {
      r, p := Parsesimple(s, p);
    }
  }

  method Parseblock(s: string, ps: nat) returns (r: Outcome<Cmd>, p: nat)
    requires ps <= |s| && NoNul(s) && Starts(Toks(s, ps), '(')                   // else panic("parseblock")
    ensures ps <= p <= |s|
    ensures var t := ParseExec(Toks(s, ps));
      (r.Good? <==> t.Ok?) && (r.Good? ==> r.v == ExecCmdOf(t.tree) && Toks(s, p) == t.rest)
    decreases |s| - ps, 0
  {
    var _, _, _, p1 := Gettoken(s, ps);
    var c, p2 := Parseline(s, p1);
    if c.Panic? { return Panic, p2; }
    var b;
    b, p := PeekOp(s, p2, ')');
    if !b { return Panic, p; }                                   // "syntax - missing )"
    var _, _, _, p3 := Gettoken(s, p);
    var rs;
    rs, p := Parseredirs(s, p3);
    if rs.Panic? { return Panic, p; }
    r := Good(Wrapped(c.v, rs.v));
  }

  method Parsepipe(s: string, ps: nat) returns (r: Outcome<Cmd>, p: nat)
    requires ps <= |s| && NoNul(s)
    ensures ps <= p <= |s|
    ensures var t := ParsePipe(Toks(s, ps));
      (r.Good? <==> t.Ok?) && (r.Good? ==> r.v == PipeCmdOf(t.tree) && Toks(s, p) == t.rest)
    decreases |s| - ps, 2
  {
    r, p := Parseexec(s, ps);
    if r.Panic? { return; }
    var b;
    b, p := PeekOp(s, p, '|');
    if b {
      var _, _, _, p1 := Gettoken(s, p);
      var right;
      right, p := Parsepipe(s, p1);
      r := if right.Panic? then Panic else Good(PipeCmd(r.v, right.v));
    }
  }

  method Parseline(s: string, ps: nat) returns (r: Outcome<Cmd>, p: nat)
    requires ps <= |s| && NoNul(s)
    ensures ps <= p <= |s|
    ensures var t := ParseLine(Toks(s, ps));
      (r.Good? <==> t.Ok?) && (r.Good? ==> r.v == LineCmd(t.tree) && Toks(s, p) == t.rest)
    decreases |s| - ps, 3
  {
    r, p := Parsepipe(s, ps);
    if r.Panic? { return; }
    ghost var t := ParsePipe(Toks(s, ps));
    ghost var n := 0;
    var cmd := r.v;
    var b;
    b, p := PeekOp(s, p, '&');
    assert t.rest[0..] == t.rest;
    while b
      invariant ps <= p <= |s| && n <= |t.rest| && Toks(s, p) == t.rest[n..] && (b <==> Starts(t.rest[n..], '&'))
      invariant cmd == Backs(PipeCmdOf(t.tree), n) && CountAmps(t.rest) == n + CountAmps(t.rest[n..])
      decreases |s| - p
    {
      var _, _, _, p1 := Gettoken(s, p);
      assert t.rest[n..][1..] == t.rest[n + 1..];
      cmd := BackCmd(cmd);
      n := n + 1;
      b, p := PeekOp(s, p1, '&');
    }
    assert CountAmps(t.rest) == n;
    b, p := PeekOp(s, p, ';');
    if b {
      var _, _, _, p1 := Gettoken(s, p);
      var rest;
      rest, p := Parseline(s, p1);
      r := if rest.Panic? then Panic else Good(ListCmd(cmd, rest.v));
    } else {
      r := Good(cmd);
    }
  }

  // ----- Words, and their termination in place -----

  /** The words of a command: argv entries and file names. */
  function Words(c: Cmd): seq<Tok> {
    match c
    case ExecCmd(argv) => argv
    case RedirCmd(d, w, _, _) => Words(d) + [w]
    case PipeCmd(l, r) => Words(l) + Words(r)
    case ListCmd(l, r) => Words(l) + Words(r)
    case BackCmd(d) => Words(d)
  }

  /** The words among tokens, each as often as it occurs. */
  function Bag(ts: seq<Tok>): multiset<Tok> {
    if ts == [] then multiset{} else (if ts[0].Word? then multiset{ts[0]} else multiset{}) + Bag(ts[1..])
  }

  lemma {:induction false} BagAppend(a: seq<Tok>, b: seq<Tok>)
    ensures Bag(a + b) == Bag(a) + Bag(b)
    decreases |a|
  {
    if a == [] {
      assert a + b == b;
    } else {
      BagAppend(a[1..], b);
      assert (a + b)[1..] == a[1..] + b && (a + b)[0] == a[0];
    }
  }

  lemma {:induction false} AmpsHaveNoWords(n: nat)
    ensures Bag(Amps(n)) == multiset{}
  {
    if n > 0 {
      AmpsHaveNoWords(n - 1);
      assert Amps(n)[1..] == Amps(n - 1);
    }
  }

  lemma BagOp(a: seq<Tok>, c: char, b: seq<Tok>)
    ensures Bag(a + [Op(c)] + b) == Bag(a) + Bag(b) && Bag([Op(c)] + b) == Bag(b)
  {
    BagAppend(a + [Op(c)], b);
    BagAppend(a, [Op(c)]);
    BagAppend([Op(c)], b);
  }

  function ItemBag(items: seq<Item>): multiset<Tok> {
    if items == [] then multiset{} else multiset{items[0].w} + ItemBag(items[1..])
  }

  lemma {:induction false} ItemsBag(items: seq<Item>)
    requires ItemsOk(items)
    ensures Bag(ItemsToks(items)) == ItemBag(items)
    decreases |items|
  {
    if items != [] {
      ItemsBag(items[1..]);
      assert ItemOk(items[0]);
      BagAppend(ItemToks(items[0]), ItemsToks(items[1..]));
      var w := items[0].w;
      assert Bag([w]) == multiset{w} + Bag([]);
      if items[0].File? { BagOp([], items[0].op, [w]); assert [] + [Op(items[0].op)] + [w] == [Op(items[0].op), w]; }
    }
  }

  function FileBag(items: seq<Item>): multiset<Tok> {
    if items == [] then multiset{} else (if items[0].File? then multiset{items[0].w} else multiset{}) + FileBag(items[1..])
  }

  lemma {:induction false} WrappedWords(c: Cmd, items: seq<Item>)
    ensures multiset(Words(Wrapped(c, items))) == multiset(Words(c)) + FileBag(items)
    decreases |items|
  {
    if items != [] {
      var d := if items[0].File? then Redirected(c, items[0].op, items[0].w) else c;
      WrappedWords(d, items[1..]);
      OneWrapped(c, items[0]);
    }
  }

  lemma OneWrapped(c: Cmd, i: Item)
    ensures var d := if i.File? then Redirected(c, i.op, i.w) else c;
      multiset(Words(d)) == multiset(Words(c)) + (if i.File? then multiset{i.w} else multiset{})
  {
  }

  lemma {:induction false} ItemsSplit(items: seq<Item>)
    ensures ItemBag(items) == multiset(ArgWords(items)) + FileBag(items)
    decreases |items|
  {
    if items != [] { ItemsSplit(items[1..]); }
  }

  lemma {:induction false} BacksWords(c: Cmd, n: nat)
    ensures Words(Backs(c, n)) == Words(c)
  {
    if n > 0 { BacksWords(c, n - 1); }
  }

  /** The command built from a tree has exactly the words of its tokens, each as often as it occurs. */
  lemma {:induction false} LineWords(l: Line)
    requires LineOk(l)
    ensures multiset(Words(LineCmd(l))) == Bag(LineToks(l))
    decreases l, 3
  {
    PipeWords(l.pipe);
    BacksWords(PipeCmdOf(l.pipe), l.amps);
    AmpsHaveNoWords(l.amps);
    BagAppend(PipeToks(l.pipe), Amps(l.amps));
    if l.More? {
      LineWords(l.rest);
      BagOp(PipeToks(l.pipe) + Amps(l.amps), ';', LineToks(l.rest));
    }
  }

  lemma {:induction false} PipeWords(p: Pipe)
    requires PipeOk(p)
    ensures multiset(Words(PipeCmdOf(p))) == Bag(PipeToks(p))
    decreases p, 2
  {
    ExecWords(p.exec);
    if p.Piped? {
      PipeWords(p.rest);
      BagOp(ExecToks(p.exec), '|', PipeToks(p.rest));
    }
  }

  lemma {:induction false} ExecWords(e: Exec)
    requires ExecOk(e)
    ensures multiset(Words(ExecCmdOf(e))) == Bag(ExecToks(e))
    decreases e, 1
  {
    match e
    case Block(l, rs) =>
      LineWords(l);
      WrappedWords(LineCmd(l), rs);
      ItemsBag(rs);
      ItemsSplit(rs);
      OnlyFiles(rs);
      BagOp([Op('(')] + LineToks(l), ')', ItemsToks(rs));
      BagOp([], '(', LineToks(l));
    case Simple(items) =>
      WrappedWords(ExecCmd(ArgWords(items)), items);
      ItemsBag(items);
      ItemsSplit(items);
  }

  /** A word token is a maximal run of word characters. */
  ghost predicate IsWordOf(s: string, w: Tok) {
    && w.Word? && w.q < w.eq <= |s|
    && (forall k :: w.q <= k < w.eq ==> WordChar(s[k]))
    && (w.eq < |s| ==> !WordChar(s[w.eq])) && (w.q > 0 ==> !WordChar(s[w.q - 1]))
  }

  /** No word runs across position i. */
  predicate Boundary(s: string, i: nat) { 0 < i < |s| ==> !WordChar(s[i - 1]) || !WordChar(s[i]) }

  lemma LexemeBounds(s: string, i: nat)
    requires i <= |s| && Boundary(s, i) && Skip(s, i) < |s|
    ensures var t := Lexeme(s, Skip(s, i)); Boundary(s, t.1) && (t.0.Word? ==> IsWordOf(s, t.0))
  {
    var j := Skip(s, i);
    assert j > i ==> White(s[j - 1]);
  }

  lemma {:induction false} ToksAreWords(s: string, i: nat, w: Tok)
    requires i <= |s| && w in Bag(Toks(s, i)) && Boundary(s, i)
    ensures IsWordOf(s, w)
    decreases |s| - i
  {
    var j := Skip(s, i);
    var t := Lexeme(s, j);
    LexemeBounds(s, i);
    assert Toks(s, i)[0] == t.0 && Toks(s, i)[1..] == Toks(s, t.1);
    if w in Bag(Toks(s, t.1)) { ToksAreWords(s, t.1, w); }
  }

  /** Words do not overlap, and no word's end lies inside a word: terminating one cannot damage another. */
  lemma EndsOutside(s: string, v: Tok, w: Tok)
    requires IsWordOf(s, v) && IsWordOf(s, w)
    ensures !(v.q <= w.eq < v.eq)
    ensures v.q == w.q || v.eq <= w.q || w.eq <= v.q
    ensures v.q == w.q ==> v == w
  {
    NotInside(s, v, w.eq);
    NotInside(s, w, v.eq);
    if w.q > 0 { NotInside(s, v, w.q - 1); }
    if v.q > 0 { NotInside(s, w, v.q - 1); }
  }

  lemma NotInside(s: string, v: Tok, k: nat)
    requires IsWordOf(s, v) && k <= |s| && (k < |s| ==> !WordChar(s[k]))
    ensures !(v.q <= k < v.eq)
  {
  }

  predicate EndsAt(ws: seq<Tok>, k: nat) { exists i :: 0 <= i < |ws| && ws[i].Word? && ws[i].eq == k }

  lemma EndsAppend(a: seq<Tok>, b: seq<Tok>, k: nat)
    ensures EndsAt(a + b, k) <==> EndsAt(a, k) || EndsAt(b, k)
  {
    if EndsAt(a, k) {
      var i :| 0 <= i < |a| && a[i].Word? && a[i].eq == k;
      assert (a + b)[i] == a[i];
    }
    if EndsAt(b, k) {
      var i :| 0 <= i < |b| && b[i].Word? && b[i].eq == k;
      assert (a + b)[|a| + i] == b[i];
    }
  }

  ghost predicate Terminated(was: seq<char>, now: seq<char>, ws: seq<Tok>) {
    |was| == |now| && forall k :: 0 <= k < |now| ==> now[k] == if EndsAt(ws, k) then NUL else was[k]
  }

  lemma TerminatedBoth(a: seq<char>, b: seq<char>, c: seq<char>, u: seq<Tok>, v: seq<Tok>)
    requires Terminated(a, b, u) && Terminated(b, c, v)
    ensures Terminated(a, c, u + v)
  {
    forall k: nat | k < |c| ensures c[k] == if EndsAt(u + v, k) then NUL else a[k] { EndsAppend(u, v, k); }
  }

  /** Writes a NUL after every word of the command and nowhere else. */
  method Nulterminate(buf: array<char>, c: Cmd)
    requires forall w :: w in Words(c) ==> w.Word? && w.eq < buf.Length
    modifies buf
    ensures Terminated(old(buf[..]), buf[..], Words(c))
    decreases c
  {
    ghost var b0 := buf[..];
    match c {
      case ExecCmd(argv) =>
        for i := 0 to |argv|
          invariant Terminated(b0, buf[..], argv[..i])
        {
          ghost var b1 := buf[..];
          assert argv[i] in Words(c);
          buf[argv[i].eq] := NUL;
          assert Terminated(b1, buf[..], [argv[i]]) by { OneEnd(argv[i]); }
          TerminatedBoth(b0, b1, buf[..], argv[..i], [argv[i]]);
          assert argv[..i + 1] == argv[..i] + [argv[i]];
        }
        assert argv[..|argv|] == argv;
      case RedirCmd(d, w, _, _) =>
        assert w in Words(c);
        Nulterminate(buf, d);
        ghost var b1 := buf[..];
        buf[w.eq] := NUL;
        assert Terminated(b1, buf[..], [w]) by { OneEnd(w); }
        TerminatedBoth(b0, b1, buf[..], Words(d), [w]);
      case PipeCmd(l, r) =>
        Nulterminate(buf, l);
        ghost var b1 := buf[..];
        Nulterminate(buf, r);
        TerminatedBoth(b0, b1, buf[..], Words(l), Words(r));
      case ListCmd(l, r) =>
        Nulterminate(buf, l);
        ghost var b1 := buf[..];
        Nulterminate(buf, r);
        TerminatedBoth(b0, b1, buf[..], Words(l), Words(r));
      case BackCmd(d) =>
        Nulterminate(buf, d);
    }
  }

  lemma OneEnd(w: Tok)
    requires w.Word?
    ensures forall k: nat :: EndsAt([w], k) <==> k == w.eq
  {
    assert [w][0] == w;
  }

  /** A pointer into the buffer reads back the characters of its word, ended by a NUL. */
  ghost predicate ReadsBack(s: string, buf: seq<char>, w: Tok) {
    w.Word? && w.q < w.eq < |buf| && w.eq <= |s| && buf[w.q..w.eq] == s[w.q..w.eq] && NUL !in buf[w.q..w.eq] && buf[w.eq] == NUL
  }

  lemma TerminatedReadsBack(s: string, buf: seq<char>, ws: seq<Tok>, w: Tok)
    requires Terminated(s + [NUL], buf, ws) && NoNul(s) && w in ws && forall v :: v in ws ==> IsWordOf(s, v)
    ensures ReadsBack(s, buf, w)
  {
    var i :| 0 <= i < |ws| && ws[i] == w;
    assert EndsAt(ws, w.eq);
    forall k | w.q <= k < w.eq ensures buf[k] == s[k] {
      if EndsAt(ws, k) {
        var j :| 0 <= j < |ws| && ws[j].Word? && ws[j].eq == k;
        EndsOutside(s, w, ws[j]);
      }
    }
  }

  /**
  parsecmd: succeeds exactly when the grammar derives the line's tokens, and then returns the command of the one tree
  that does. Its words are the line's words, each once, and every one reads back from the buffer as it was typed.
  */
  method Parsecmd(buf: array<char>) returns (r: Outcome<Cmd>)
    requires buf.Length > 0 && buf[buf.Length - 1] == NUL && NoNul(buf[..buf.Length - 1])
    modifies buf
    ensures var s := old(buf[..buf.Length - 1]);
      && (r.Good? <==> exists l :: LineOk(l) && LineToks(l) == Toks(s, 0))
      && (r.Good? ==> forall l :: LineOk(l) && LineToks(l) == Toks(s, 0) ==> r.v == LineCmd(l))
      && (r.Good? <==> exists c :: Spells(c, Toks(s, 0), 3))
      && (r.Good? ==> forall c :: Spells(c, Toks(s, 0), 3) <==> c == r.v)
      && (r.Good? ==> Ordered(r.v) && forall op :: op != '(' && op != ')' ==> Nodes(r.v, op) == Count(Toks(s, 0), op))
      && (r.Good? ==> multiset(Words(r.v)) == Bag(Toks(s, 0)))
      && (r.Good? ==> forall w :: w in Words(r.v) ==> ReadsBack(s, buf[..], w))
  {
    var s := buf[..buf.Length - 1];
    ghost var ts := Toks(s, 0);
    assert buf[..] == s + [NUL];
    var p;
    r, p := Parseline(s, 0);
    Accepted(ts);
    SpeltIsAccepted(ts);
    if r.Panic? { return; }
    NextToken(s, p);
    var _, e := Peek(s, p, "");
    if e != |s| { return Panic; }                                // "leftovers"
    ghost var l := ParseLine(ts).tree;
    LineSound(ts);
    assert LineToks(l) + [] == LineToks(l);
    LineWords(l);
    Understood(s, l);
    forall w | w in Words(r.v) ensures IsWordOf(s, w) {
      assert w in multiset(Words(r.v));
      ToksAreWords(s, 0, w);
    }
    forall m | LineOk(m) && LineToks(m) == ts ensures r.v == LineCmd(m) { NoTwoTrees(l, m); }
    Nulterminate(buf, r.v);
    forall w | w in Words(r.v) ensures ReadsBack(s, buf[..], w) { TerminatedReadsBack(s, buf[..], Words(r.v), w); }
  }

  lemma SpeltIsAccepted(ts: seq<Tok>)
    ensures (exists c :: Spells(c, ts, 3)) <==> exists l :: LineOk(l) && LineToks(l) == ts
  {
    if c :| Spells(c, ts, 3) { var l := TreeOfLine(c, ts); }
    if l :| LineOk(l) && LineToks(l) == ts {
      LineSpells(l);
      assert Spells(LineCmd(l), ts, 3);
    }
  }

  lemma Understood(s: string, l: Line)
    requires LineOk(l) && LineToks(l) == Toks(s, 0)
    ensures forall c :: Spells(c, Toks(s, 0), 3) <==> c == LineCmd(l)
    ensures Ordered(LineCmd(l))
    ensures forall op :: op != '(' && op != ')' ==> Nodes(LineCmd(l), op) == Count(Toks(s, 0), op)
  {
    OneSpelling(l);
    ToksSorted(s, 0);
    SpeltInOrder(LineCmd(l), Toks(s, 0), 3);
    forall op | op != '(' && op != ')' ensures Nodes(LineCmd(l), op) == Count(Toks(s, 0), op) {
      OpsAreNodes(LineCmd(l), Toks(s, 0), 3, op);
    }
  }

  lemma {:induction false} ToksSorted(s: string, i: nat)
    requires i <= |s|
    ensures Sorted(Toks(s, i)) && forall k :: 0 <= k < |Toks(s, i)| && Toks(s, i)[k].Word? ==> i <= Toks(s, i)[k].q
    decreases |s| - i
  {
    var j := Skip(s, i);
    if j < |s| {
      var t := Lexeme(s, j);
      ToksSorted(s, t.1);
      assert Toks(s, i) == [t.0] + Toks(s, t.1);
    }
  }

  lemma Accepted(ts: seq<Tok>)
    ensures ParseLine(ts).Ok? && ParseLine(ts).rest == [] <==> exists l :: LineOk(l) && LineToks(l) == ts
  {
    if ParseLine(ts).Ok? && ParseLine(ts).rest == [] { AcceptsTheGrammar(ts, ParseLine(ts).tree); }
    if l :| LineOk(l) && LineToks(l) == ts { AcceptsTheGrammar(ts, l); }
  }
}
