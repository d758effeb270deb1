/** The route list of a subscription is stored as one comma-separated text and searched as text. */
module Routes {

  function Join(routes: seq<string>): string {
    if routes == [] then ""
    else if |routes| == 1 then routes[0]
    else routes[0] + "," + Join(routes[1..])
  }

  function Wrap(s: string): string {
    "," + s + ","
  }

  predicate OccursAt(text: string, part: string, i: nat) {
    i + |part| <= |text| && text[i..i + |part|] == part
  }

  /** The test instr(text, part) > 0. */
  predicate Contains(text: string, part: string) {
    exists i: nat :: i <= |text| && OccursAt(text, part, i)
  }

  predicate CommaFree(s: string) {
    ',' !in s
  }

  /** The filter that the enqueue statement applies. */
  predicate Selects(joined: string, route: string) {
    Contains(Wrap(joined), Wrap(route))
  }

  lemma OccursPointwise(text: string, part: string, i: nat)
    ensures OccursAt(text, part, i) <==> i + |part| <= |text| && forall j :: 0 <= j < |part| ==> text[i + j] == part[j]
  {
    if i + |part| <= |text| {
      var piece := text[i..i + |part|];
      assert forall j :: 0 <= j < |part| ==> piece[j] == text[i + j];
    }
  }

  /** An occurrence of a wrapped word at the start of a comma-led text is its first word. */
  lemma FirstWord(word: string, tail: string, route: string)
    requires CommaFree(word) && CommaFree(route)
    requires tail != "" && tail[0] == ','
    ensures OccursAt("," + word + tail, Wrap(route), 0) <==> route == word
  {
    var text, part := "," + word + tail, Wrap(route);
    OccursPointwise(text, part, 0);
    assert text[|word| + 1] == ',' && part[|route| + 1] == ',';
    assert forall i :: 0 < i <= |word| ==> text[i] == word[i - 1] && text[i] in word;
    assert forall i :: 0 < i <= |route| ==> part[i] == route[i - 1] && part[i] in route;
    if |word| < |route| {
      assert text[0 + (|word| + 1)] != part[|word| + 1];
    } else if |route| < |word| {
      assert text[0 + (|route| + 1)] != part[|route| + 1];
    } else if route != word {
      var i :| 0 <= i < |word| && word[i] != route[i];
      assert text[0 + (i + 1)] != part[i + 1];
    }
  }

  lemma LaterWords(word: string, tail: string, route: string, i: nat)
    requires CommaFree(word)
    requires 0 < i
    ensures OccursAt("," + word + tail, Wrap(route), i) <==>
            |word| < i && OccursAt(tail, Wrap(route), i - |word| - 1)
  {
    var text, part := "," + word + tail, Wrap(route);
    OccursPointwise(text, part, i);
    if i <= |word| {
      assert text[i] == word[i - 1] && text[i] in word;
      assert text[i + 0] != part[0];
    } else {
      var j := i - |word| - 1;
      OccursPointwise(tail, part, j);
      assert forall n :: 0 <= n < |tail| ==> text[n + |word| + 1] == tail[n];
    }
  }

  lemma OneWordMore(word: string, tail: string, route: string)
    requires CommaFree(word) && CommaFree(route)
    requires tail != "" && tail[0] == ','
    ensures Contains("," + word + tail, Wrap(route)) <==> route == word || Contains(tail, Wrap(route))
  {
    var text, part := "," + word + tail, Wrap(route);
    FirstWord(word, tail, route);
    forall i: nat | 0 < i
      ensures OccursAt(text, part, i) <==> |word| < i && OccursAt(tail, part, i - |word| - 1)
    {
      LaterWords(word, tail, route, i);
    }
    if Contains(tail, part) {
      var j: nat :| j <= |tail| && OccursAt(tail, part, j);
      assert OccursAt(text, part, j + |word| + 1);
    }
  }

  lemma NothingInOneComma(route: string)
    ensures !Contains(",", Wrap(route))
  {
  }

  // ----- splitting -----

  function CommaAt(text: string): (i: nat)
    ensures i <= |text| && (i < |text| ==> text[i] == ',')
    ensures forall j :: 0 <= j < i ==> text[j] != ','
    ensures CommaFree(text[..i])
  {
    if text == "" then 0
    else if text[0] == ',' then 0
    else
      var i := CommaAt(text[1..]) + 1;
      assert text[..i] == [text[0]] + text[1..][..i - 1];
      i
  }

  /** The pieces between the commas; the empty text has one empty piece. */
  function Split(text: string): seq<string>
    decreases |text|
  {
    var i := CommaAt(text);
    if i == |text| then [text] else [text[..i]] + Split(text[i + 1..])
  }

  /** The search finds exactly the comma-free pieces of the text, whatever the text is. */
  lemma {:induction false} SearchFindsPieces(text: string, route: string)
    requires CommaFree(route)
    ensures Selects(text, route) <==> route in Split(text)
    decreases |text|
  {
    var i := CommaAt(text);
    if i == |text| {
      assert text[..i] == text;
      OneWordMore(text, ",", route);
      NothingInOneComma(route);
      assert Wrap(text) == "," + text + ",";
    } else {
      var rest := text[i + 1..];
      SearchFindsPieces(rest, route);
      OneWordMore(text[..i], Wrap(rest), route);
      assert Wrap(text) == "," + text[..i] + Wrap(rest);
    }
  }

  lemma SplitAt(text: string, i: nat)
    requires i == CommaAt(text) < |text|
    ensures Split(text) == [text[..i]] + Split(text[i + 1..])
  {
  }

  lemma WordEnds(word: string, rest: string)
    requires CommaFree(word)
    ensures CommaAt(word + "," + rest) == |word| < |word + "," + rest|
    ensures (word + "," + rest)[..|word|] == word && (word + "," + rest)[|word| + 1..] == rest
  {
    var text := word + "," + rest;
    assert text[|word|] == ',' && forall n :: 0 <= n < |word| ==> text[n] == word[n] && word[n] in word;
  }

  lemma SplitWord(word: string, rest: string)
    requires CommaFree(word)
    ensures Split(word + "," + rest) == [word] + Split(rest)
  {
    WordEnds(word, rest);
    SplitAt(word + "," + rest, |word|);
  }

  lemma Regrouped(word: string, rest: string, b: string)
    ensures (word + "," + rest) + "," + b == word + "," + (rest + "," + b)
  {
  }

  lemma JoinsRegroup(a: seq<string>, b: seq<string>, c: seq<string>)
    ensures (a + b) + c == a + (b + c)
  {
  }

  lemma SplitLonger(word: string, rest: string, longer: string, whole: string, b: seq<string>)
    requires CommaFree(word) && whole == word + "," + longer && Split(longer) == Split(rest) + b
    ensures Split(whole) == ([word] + Split(rest)) + b
  {
    SplitWord(word, longer);
    JoinsRegroup([word], Split(rest), b);
  }

  lemma {:induction false} SplitJoined(a: string, b: string)
    ensures Split(a + "," + b) == Split(a) + Split(b)
    decreases |a|
  {
    if CommaFree(a) {
      CommaFreeIsOnePiece(a);
      SplitWord(a, b);
    } else {
      var word, rest := CutAtComma(a);
      SplitJoined(rest, b);
      Regrouped(word, rest, b);
      SplitLonger(word, rest, rest + "," + b, a + "," + b, Split(b));
      SplitWord(word, rest);
    }
  }

  lemma CutAtComma(text: string) returns (word: string, rest: string)
    requires !CommaFree(text)
    ensures text == word + "," + rest && CommaFree(word)
  {
    var i := CommaAt(text);
    assert text[..|text|] == text;
    word, rest := text[..i], text[i + 1..];
  }

  lemma CommaFreeIsOnePiece(name: string)
    requires CommaFree(name)
    ensures Split(name) == [name]
  {
    assert name[..|name|] == name;
  }

  /** The pieces of the joined names are the pieces of each name in turn. */
  function Pieces(routes: seq<string>): seq<string> {
    if routes == [] then [] else Split(routes[0]) + Pieces(routes[1..])
  }

  lemma {:induction false} SplitOfJoin(routes: seq<string>)
    requires routes != []
    ensures Split(Join(routes)) == Pieces(routes)
  {
    if |routes| == 1 {
      assert Pieces(routes[1..]) == [];
    } else {
      SplitOfJoin(routes[1..]);
      SplitJoined(routes[0], Join(routes[1..]));
    }
  }

  lemma {:induction false} PiecesOfNames(routes: seq<string>)
    requires forall r :: r in routes ==> CommaFree(r)
    ensures Pieces(routes) == routes
  {
    if routes != [] {
      CommaFreeIsOnePiece(routes[0]);
      PiecesOfNames(routes[1..]);
    }
  }

  lemma {:induction false} PiecesAreCommaFree(text: string)
    ensures forall piece :: piece in Split(text) ==> CommaFree(piece)
    decreases |text|
  {
    if CommaAt(text) < |text| {
      PiecesAreCommaFree(text[CommaAt(text) + 1..]);
    } else {
      assert text[..|text|] == text;
    }
  }

  /** Splitting the stored text restores the list it was joined from. */
  lemma SplitRestoresTheList(routes: seq<string>)
    requires routes != [] && forall r :: r in routes ==> CommaFree(r)
    ensures Split(Join(routes)) == routes
  {
    SplitOfJoin(routes);
    PiecesOfNames(routes);
  }

  /** Searching the joined text is membership in the list; only the empty list behaves like a list of one empty name. */
  lemma TextSearchIsMembership(routes: seq<string>, route: string)
    requires CommaFree(route) && forall r :: r in routes ==> CommaFree(r)
    ensures Selects(Join(routes), route) <==> route in routes || (routes == [] && route == "")
  {
    SearchFindsPieces(Join(routes), route);
    if routes != [] {
      SplitRestoresTheList(routes);
    } else {
      CommaFreeIsOnePiece("");
    }
  }

  /** Were commas allowed in names, the search would agree with membership exactly if every piece of every name were listed. */
  lemma SearchAgreesExactly(routes: seq<string>)
    requires routes != []
    ensures (forall route :: CommaFree(route) ==> (Selects(Join(routes), route) <==> route in routes)) <==>
            forall piece :: piece in Pieces(routes) ==> piece in routes
  {
    SplitOfJoin(routes);
    PiecesAreCommaFree(Join(routes));
    forall route | CommaFree(route)
      ensures Selects(Join(routes), route) <==> route in Pieces(routes)
    {
      SearchFindsPieces(Join(routes), route);
    }
    forall route | CommaFree(route) && route in routes
      ensures route in Pieces(routes)
    {
      ListedNameIsAPiece(routes, route);
    }
  }

  lemma {:induction false} ListedNameIsAPiece(routes: seq<string>, route: string)
    requires CommaFree(route) && route in routes
    ensures route in Pieces(routes)
  {
    if route == routes[0] {
      CommaFreeIsOnePiece(route);
    } else {
      ListedNameIsAPiece(routes[1..], route);
    }
  }
}
