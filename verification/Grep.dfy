/**
grep's matcher for ^ . * $.  A C string is the sequence of its characters before the terminating NUL; a pointer into it
is the suffix that it points at.
*/
module Grep {

  datatype Item =
    | One(c: char)      // a literal, or any character for '.'
    | Star(c: char)     // any run of such characters
    | End               // the end of the text

  /** A pattern, without a leading ^, as a list of items. */
  function Parse(re: string): (items: seq<Item>) {
    if re == [] then []
    else if |re| > 1 && re[1] == '*' then [Star(re[0])] + Parse(re[2..])
    else if re == "$" then [End]
    else [One(re[0])] + Parse(re[1..])
  }

  predicate Fits(c: char, x: char) {
    c == '.' || c == x
  }

  /** The piece of text that a single item stands for. */
  ghost predicate Piece(item: Item, s: string) {
    match item
    case One(c) => |s| == 1 && Fits(c, s[0])
    case Star(c) => forall i :: 0 <= i < |s| ==> Fits(c, s[i])
    case End => s == []
  }

  ghost function Join(pieces: seq<string>): string {
    if pieces == [] then [] else pieces[0] + Join(pieces[1..])
  }

  ghost predicate Anchored(items: seq<Item>) {
    items != [] && items[|items| - 1] == End
  }

  /** `pieces` cuts the segment of text that the items match: a prefix, and all of it under a final $. */
  ghost predicate Splits(items: seq<Item>, text: string, pieces: seq<string>) {
    && |pieces| == |items| && (forall i :: 0 <= i < |items| ==> Piece(items[i], pieces[i]))
    && Join(pieces) <= text && (Anchored(items) ==> Join(pieces) == text)
  }

  /** The items match some segment at the start of text. */
  ghost predicate Accepts(items: seq<Item>, text: string) {
    exists pieces :: Splits(items, text, pieces)
  }

  /** What match decides: under ^ a segment at the start of text, otherwise a segment anywhere. */
  ghost predicate Matches(re: string, text: string) {
    if re != [] && re[0] == '^' then Accepts(Parse(re[1..]), text)
    else exists s :: 0 <= s <= |text| && Accepts(Parse(re), text[s..])
  }

  lemma AcceptsNothing(text: string)
    ensures Accepts([], text)
  {
    assert Splits([], text, []);
  }

  lemma AcceptsEnd(text: string)
    ensures Accepts([End], text) <==> text == []
  {
    if text == [] {
      assert Splits([End], text, [[]]);
    }
    if pieces :| Splits([End], text, pieces) {
      assert pieces == [[]];
      assert Join(pieces) == [];
    }
  }

  lemma SplitFirst(item: Item, rest: seq<Item>, text: string, pieces: seq<string>)
    requires Splits([item] + rest, text, pieces) && item != End
    ensures |pieces[0]| <= |text| && text[..|pieces[0]|] == pieces[0] && Piece(item, pieces[0])
    ensures Splits(rest, text[|pieces[0]|..], pieces[1..])
  {
    var items := [item] + rest;
    assert rest != [] ==> items[|items| - 1] == rest[|rest| - 1];
    assert Join(pieces) == pieces[0] + Join(pieces[1..]);
    assert Piece(items[0], pieces[0]);
    assert forall i :: 0 <= i < |rest| ==> items[i + 1] == rest[i];
  }

  lemma SplitMore(item: Item, rest: seq<Item>, text: string, k: nat, tail: seq<string>)
    requires k <= |text| && Piece(item, text[..k]) && Splits(rest, text[k..], tail) && item != End
    ensures Splits([item] + rest, text, [text[..k]] + tail)
  {
    var items, pieces := [item] + rest, [text[..k]] + tail;
    assert rest != [] ==> items[|items| - 1] == rest[|rest| - 1];
    assert text == text[..k] + text[k..];
    assert pieces[1..] == tail;
  }

  /** A first item matches some piece at the start, and the others match what follows. */
  lemma AcceptsFirst(item: Item, rest: seq<Item>, text: string)
    requires item != End
    ensures Accepts([item] + rest, text) <==> exists k :: 0 <= k <= |text| && Piece(item, text[..k]) && Accepts(rest, text[k..])
  {
    if pieces :| Splits([item] + rest, text, pieces) {
      SplitFirst(item, rest, text, pieces);
    }
    if k :| 0 <= k <= |text| && Piece(item, text[..k]) && Accepts(rest, text[k..]) {
      var tail :| Splits(rest, text[k..], tail);
      SplitMore(item, rest, text, k, tail);
    }
  }

  lemma AcceptsOne(c: char, rest: seq<Item>, text: string)
    ensures Accepts([One(c)] + rest, text) <==> text != [] && Fits(c, text[0]) && Accepts(rest, text[1..])
  {
    AcceptsFirst(One(c), rest, text);
    if text != [] && Fits(c, text[0]) && Accepts(rest, text[1..]) {
      assert Piece(One(c), text[..1]);
    }
  }

  // ----- What a pattern means, from its characters alone -----

  /** The pattern describes text from its start on: c* a run of c, a final $ the end, '.' any character, others themselves. */
  ghost predicate Here(re: string, text: string)
    decreases |re|
  {
    if re == "" then true
    else if |re| > 1 && re[1] == '*' then exists k :: 0 <= k <= |text| && Run(re[0], text[..k]) && Here(re[2..], text[k..])
    else if re == "$" then text == ""
    else text != "" && (re[0] == '.' || re[0] == text[0]) && Here(re[1..], text[1..])
  }

  predicate Run(c: char, s: string) { forall i :: 0 <= i < |s| ==> c == '.' || s[i] == c }

  lemma {:induction false} HereIsAccepted(re: string, text: string)
    ensures Here(re, text) <==> Accepts(Parse(re), text)
    decreases |re|
  {
    if re == "" {
      AcceptsNothing(text);
    } else if |re| > 1 && re[1] == '*' {
      AcceptsFirst(Star(re[0]), Parse(re[2..]), text);
      forall k | 0 <= k <= |text|
        ensures Run(re[0], text[..k]) && Here(re[2..], text[k..]) <==>
                  Piece(Star(re[0]), text[..k]) && Accepts(Parse(re[2..]), text[k..])
      {
        HereIsAccepted(re[2..], text[k..]);
      }
    } else if re == "$" {
      AcceptsEnd(text);
    } else {
      AcceptsOne(re[0], Parse(re[1..]), text);
      if text != "" { HereIsAccepted(re[1..], text[1..]); }
    }
  }

  /** Characters that stand for themselves, and dots. */
  predicate Plain(re: string) { '*' !in re && '$' !in re && '^' !in re }

  predicate Like(re: string, text: string) { |re| == |text| && forall i :: 0 <= i < |re| ==> re[i] == '.' || re[i] == text[i] }

  predicate OccursAt(re: string, text: string, s: nat) { s + |re| <= |text| && Like(re, text[s..s + |re|]) }

  /** Such a pattern describes a start of text as long as itself, character by character, and before a $ the whole of it. */
  lemma {:induction false} PlainHere(re: string, text: string)
    requires Plain(re)
    ensures Here(re, text) <==> |re| <= |text| && Like(re, text[..|re|])
    ensures Here(re + "$", text) <==> Like(re, text)
    decreases |re|
  {
    if re == "" {
      assert re + "$" == "$";
    } else {
      var all := re + "$";
      assert all[0] == re[0] && all[1..] == re[1..] + "$" && all != "$" && all[1] != '*';
      if text != "" {
        PlainHere(re[1..], text[1..]);
        var t := text[1..];
        assert |re| <= |text| ==> text[..|re|] == [text[0]] + t[..|re| - 1];
        assert text == [text[0]] + t && re == [re[0]] + re[1..];
      }
    }
  }

  /** Without anchors such a pattern is found as a substring; ^ asks for a prefix, $ for a suffix, both for all of text. */
  lemma PlainMatch(re: string, text: string)
    requires Plain(re)
    ensures Matches(re, text) <==> exists s: nat :: OccursAt(re, text, s)
    ensures Matches("^" + re, text) <==> |re| <= |text| && Like(re, text[..|re|])
    ensures Matches(re + "$", text) <==> |re| <= |text| && Like(re, text[|text| - |re|..])
    ensures Matches("^" + re + "$", text) <==> Like(re, text)
  {
    assert ("^" + re)[1..] == re && ("^" + re + "$")[1..] == re + "$";
    HereIsAccepted(re, text);
    HereIsAccepted(re + "$", text);
    PlainHere(re, text);
    forall s | 0 <= s <= |text|
      ensures Accepts(Parse(re), text[s..]) <==> OccursAt(re, text, s)
      ensures Accepts(Parse(re + "$"), text[s..]) <==> s == |text| - |re| && Like(re, text[s..])
    {
      HereIsAccepted(re, text[s..]);
      HereIsAccepted(re + "$", text[s..]);
      PlainHere(re, text[s..]);
      assert s <= |text| - |re| ==> text[s..][..|re|] == text[s..s + |re|];
    }
    assert re != "" ==> (re + "$")[0] == re[0] && re[0] in re;
    if s: nat :| OccursAt(re, text, s) { assert Accepts(Parse(re), text[s..]); }
  }

  /** matchhere: search for re at the beginning of text. */
  method MatchHere(re: string, text: string) returns (b: bool)
    ensures b <==> Accepts(Parse(re), text)
    ensures b <==> Here(re, text)
    decreases |re|, 0
  {
    HereIsAccepted(re, text);
    if re == [] {
      AcceptsNothing(text);
      return true;
    }
    if |re| > 1 && re[1] == '*' {
      b := MatchStar(re[0], re[2..], text);
      return;
    }
    if re == "$" {
      AcceptsEnd(text);
      return text == [];
    }
    AcceptsOne(re[0], Parse(re[1..]), text);
    if text != [] && (re[0] == '.' || re[0] == text[0]) {
      b := MatchHere(re[1..], text[1..]);
      return;
    }
    return false;
  }

  /** matchstar: search for c*re at the beginning of text. */
  method MatchStar(c: char, re: string, text: string) returns (b: bool)
    ensures b <==> Accepts([Star(c)] + Parse(re), text)
    decreases |re|, 1
  {
    AcceptsFirst(Star(c), Parse(re), text);
    var k := 0;
    while true
      invariant k <= |text| && Piece(Star(c), text[..k])
      invariant forall j :: 0 <= j < k ==> !Accepts(Parse(re), text[j..])
      decreases |text| - k
    {
      b := MatchHere(re, text[k..]);
      if b {
        return;
      }
      if !(k < |text| && (text[k] == c || c == '.')) {
        break;
      }
      k := k + 1;
    }
    forall j | 0 <= j <= |text| && Accepts(Parse(re), text[j..]) ensures !Piece(Star(c), text[..j]) {
      assert j > k && !Fits(c, text[..j][k]);
    }
  }

  /** match: search for re anywhere in text. */
  method Match(re: string, text: string) returns (b: bool)
    ensures b <==> Matches(re, text)
    ensures b <==> if re != "" && re[0] == '^' then Here(re[1..], text) else exists s :: 0 <= s <= |text| && Here(re, text[s..])
  {
    if re != [] && re[0] == '^' {
      b := MatchHere(re[1..], text);
      return;
    }
    var s := 0;
    while true
      invariant s <= |text|
      invariant forall j :: 0 <= j < s ==> !Accepts(Parse(re), text[j..]) && !Here(re, text[j..])
      decreases |text| - s
    {
      b := MatchHere(re, text[s..]);
      if b {
        return;
      }
      if s == |text| {
        return;
      }
      s := s + 1;
    }
  }
}
