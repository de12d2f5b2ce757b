/**
  grep's regular-expression matcher: match, matchhere and matchstar against a declarative
  meaning of patterns.  A C string is the sequence of its characters before the NUL.
 */
module Grep {

  // ---------------------------------------------------------------- what a pattern means

  /** One pattern character, '.' standing for any, taken once or (star) any number of times. */
  datatype Item = Item(c: char, star: bool)

  predicate Accepts(c: char, x: char) { c == '.' || c == x }

  ghost predicate Piece(item: Item, w: string) {
    && (forall i :: 0 <= i < |w| ==> Accepts(item.c, w[i]))
    && (!item.star ==> |w| == 1)
  }

  /** A pattern without its leading '^': its items, and whether a final '$' anchors it. */
  function Items(re: string): seq<Item>
    decreases |re|
  {
    if re == "" || re == "$" then []
    else if |re| > 1 && re[1] == '*' then [Item(re[0], true)] + Items(re[2..])
    else [Item(re[0], false)] + Items(re[1..])
  }

  predicate Anchored(re: string)
    decreases |re|
  {
    if re == "" then false
    else if re == "$" then true
    else if |re| > 1 && re[1] == '*' then Anchored(re[2..])
    else Anchored(re[1..])
  }

  function Join(parts: seq<string>): string {
    if parts == [] then "" else parts[0] + Join(parts[1..])
  }

  ghost predicate Splits(items: seq<Item>, parts: seq<string>, w: string) {
    |parts| == |items| && Join(parts) == w && forall i :: 0 <= i < |items| ==> Piece(items[i], parts[i])
  }

  /** The words of a list of items: those that split into one piece per item. */
  ghost predicate Word(items: seq<Item>, w: string) { exists parts :: Splits(items, parts, w) }

  /** The pattern matches at the beginning of text: on some prefix, which '$' forces to be all of it. */
  ghost predicate Here(re: string, text: string) {
    exists j :: 0 <= j <= |text| && HereAt(re, text, j)
  }

  ghost predicate HereAt(re: string, text: string, j: nat)
    requires j <= |text|
  {
    Word(Items(re), text[..j]) && (Anchored(re) ==> j == |text|)
  }

  /** The pattern matches somewhere in text. */
  ghost predicate Matches(re: string, text: string) {
    if re != "" && re[0] == '^' then Here(re[1..], text)
    else exists i :: 0 <= i <= |text| && Here(re, text[i..])
  }

  // ---------------------------------------------------------------- unfolding the meaning

  lemma NoItems(w: string)
    ensures Word([], w) <==> w == ""
  {
    if w == "" { assert Splits([], [], w); }
  }

  /** A word of items begins with a piece for the first and goes on with a word of the rest. */
  lemma Unfold(items: seq<Item>, w: string)
    requires items != []
    ensures Word(items, w) <==> exists k :: 0 <= k <= |w| && Piece(items[0], w[..k]) && Word(items[1..], w[k..])
  {
    if Word(items, w) {
      var parts :| Splits(items, parts, w);
      var k := |parts[0]|;
      assert w[..k] == parts[0] && w[k..] == Join(parts[1..]);
      assert Splits(items[1..], parts[1..], w[k..]);
    }
    if k :| 0 <= k <= |w| && Piece(items[0], w[..k]) && Word(items[1..], w[k..]) {
      var rest :| Splits(items[1..], rest, w[k..]);
      var parts := [w[..k]] + rest;
      assert parts[1..] == rest && w == w[..k] + w[k..];
      assert Splits(items, parts, w);
    }
  }

  predicate Run(c: char, text: string, k: nat) {
    k <= |text| && forall i :: 0 <= i < k ==> Accepts(c, text[i])
  }

  lemma HereNothing(re: string, text: string)
    requires re == "" || re == "$"
    ensures Here(re, text) <==> re == "" || text == ""
  {
    forall j | 0 <= j <= |text| ensures HereAt(re, text, j) <==> j == 0 && (re == "$" ==> j == |text|) {
      NoItems(text[..j]);
    }
    if re == "" { assert HereAt(re, text, 0); }
    if text == "" { assert HereAt(re, text, 0); }
  }

  ghost predicate Follows(item: Item, rest: string, text: string, k: nat) {
    k <= |text| && Piece(item, text[..k]) && Here(rest, text[k..])
  }

  /** Matching a first item and then the rest of the pattern at the place it leaves off. */
  lemma HereItem(re: string, rest: string, item: Item, text: string)
    requires Items(re) == [item] + Items(rest) && Anchored(re) == Anchored(rest)
    ensures Here(re, text) <==> exists k: nat :: Follows(item, rest, text, k)
  {
    if Here(re, text) {
      var j :| 0 <= j <= |text| && HereAt(re, text, j);
      var k := SplitHere(re, rest, item, text, j);
    }
    if k: nat :| Follows(item, rest, text, k) {
      var m :| 0 <= m <= |text| - k && HereAt(rest, text[k..], m);
      JoinHere(re, rest, item, text, k, m);
    }
  }

  lemma SplitHere(re: string, rest: string, item: Item, text: string, j: nat) returns (k: nat)
    requires Items(re) == [item] + Items(rest) && Anchored(re) == Anchored(rest)
    requires j <= |text| && HereAt(re, text, j)
    ensures Follows(item, rest, text, k)
  {
    Unfold(Items(re), text[..j]);
    assert Items(re)[1..] == Items(rest);
    k :| 0 <= k <= j && Piece(item, text[..j][..k]) && Word(Items(rest), text[..j][k..]);
    assert text[..j][..k] == text[..k] && text[..j][k..] == text[k..][..j - k];
    assert HereAt(rest, text[k..], j - k);
  }

  lemma JoinHere(re: string, rest: string, item: Item, text: string, k: nat, m: nat)
    requires Items(re) == [item] + Items(rest) && Anchored(re) == Anchored(rest)
    requires k + m <= |text| && Piece(item, text[..k]) && HereAt(rest, text[k..], m)
    ensures HereAt(re, text, k + m)
  {
    var j := k + m;
    Unfold(Items(re), text[..j]);
    assert Items(re)[1..] == Items(rest);
    assert text[..j][..k] == text[..k] && text[..j][k..] == text[k..][..m];
  }

  lemma HereStar(re: string, text: string)
    requires |re| > 1 && re[1] == '*'
    ensures Here(re, text) <==> exists k :: 0 <= k <= |text| && Run(re[0], text, k) && Here(re[2..], text[k..])
  {
    var item := Item(re[0], true);
    HereItem(re, re[2..], item, text);
    forall k: nat | k <= |text| ensures Piece(item, text[..k]) <==> Run(re[0], text, k) {
      assert forall i :: 0 <= i < k ==> text[..k][i] == text[i];
    }
    forall k: nat ensures Follows(item, re[2..], text, k) <==>
        k <= |text| && Run(re[0], text, k) && Here(re[2..], text[k..]) { }
  }

  lemma HereOne(re: string, text: string)
    requires re != "" && re != "$" && !(|re| > 1 && re[1] == '*')
    ensures Here(re, text) <==> text != "" && Accepts(re[0], text[0]) && Here(re[1..], text[1..])
  {
    var item := Item(re[0], false);
    HereItem(re, re[1..], item, text);
    if text != "" {
      assert text[..1][0] == text[0];
      assert Accepts(re[0], text[0]) && Here(re[1..], text[1..]) ==> Follows(item, re[1..], text, 1);
    }
  }

  // ---------------------------------------------------------------- the code

  method MatchHere(re: string, text: string) returns (r: bool)
    ensures r <==> Here(re, text)
    decreases |re|, 0
  {
    if re == "" {
      HereNothing(re, text);
      return true;
    }
    if |re| > 1 && re[1] == '*' {
      HereStar(re, text);
      r := MatchStar(re[0], re[2..], text);
      return;
    }
    if re[0] == '$' && |re| == 1 {
      HereNothing(re, text);
      return text == "";
    }
    HereOne(re, text);
    if text != "" && (re[0] == '.' || re[0] == text[0]) {
      r := MatchHere(re[1..], text[1..]);
      return;
    }
    r := false;
  }

  /** matchstar: c*re at the beginning of text. */
  method MatchStar(c: char, re: string, text: string) returns (r: bool)
    ensures r <==> exists k :: 0 <= k <= |text| && Run(c, text, k) && Here(re, text[k..])
    decreases |re|, 1
  {
    var i := 0;
    while true
      invariant 0 <= i <= |text| && Run(c, text, i)
      invariant forall k :: 0 <= k < i ==> !Here(re, text[k..])
      decreases |text| - i
    {
      var here := MatchHere(re, text[i..]);
      if here {
        return true;
      }
      if i < |text| && (text[i] == c || c == '.') {
        i := i + 1;
      } else {
        return false;
      }
    }
  }

  method Match(re: string, text: string) returns (r: bool)
    ensures r <==> Matches(re, text)
  {
    if re != "" && re[0] == '^' {
      r := MatchHere(re[1..], text);
      return;
    }
    var i := 0;
    while true
      invariant 0 <= i <= |text|
      invariant forall k :: 0 <= k < i ==> !Here(re, text[k..])
      decreases |text| - i
    {
      var here := MatchHere(re, text[i..]);
      if here {
        return true;
      }
      if i < |text| {
        i := i + 1;
      } else {
        return false;
      }
    }
  }
}
