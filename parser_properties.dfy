/** What the token-tree builder (src/parser.rs) guarantees: no token other
    than the brackets is lost or reordered, a bracketed rendering of a tree
    parses back to that tree, and unbalanced input is closed or cut off
    without any error. */
module ParserProperties {
  import opened Parser

  /** The tokens other than `(` and `)`, in order. */
  function Words(toks: seq<string>): (r: seq<string>)
    ensures |r| <= |toks|
  {
    if |toks| == 0 then []
    else if toks[0] == "(" || toks[0] == ")" then Words(toks[1..])
    else [toks[0]] + Words(toks[1..])
  }

  /** The leaf texts of a tree, left to right. */
  function Leaves(t: AstNode): seq<string>
    decreases t
  {
    match t
    case Leaf(s) => [s]
    case Node(ch) => LeavesOf(ch)
  }

  function LeavesOf(ts: seq<AstNode>): seq<string>
    decreases ts
  {
    if |ts| == 0 then [] else LeavesOf(ts[..|ts| - 1]) + Leaves(ts[|ts| - 1])
  }

  /** The tokens that render a tree: a leaf is its text, a node its
      children's tokens between brackets. */
  function Unparse(t: AstNode): seq<string>
    decreases t
  {
    match t
    case Leaf(s) => [s]
    case Node(ch) => ["("] + UnparseAll(ch) + [")"]
  }

  function UnparseAll(ts: seq<AstNode>): seq<string>
    decreases ts
  {
    if |ts| == 0 then [] else Unparse(ts[0]) + UnparseAll(ts[1..])
  }

  /** No leaf text is a bracket, so rendering is unambiguous. */
  predicate Plain(t: AstNode)
    decreases t
  {
    match t
    case Leaf(s) => s != "(" && s != ")"
    case Node(ch) => forall i | 0 <= i < |ch| :: Plain(ch[i])
  }

  /** One step of a level on a word. */
  lemma LevelOnWord(t: string, tail: seq<string>, kids: seq<AstNode>)
    requires t != "(" && t != ")"
    ensures ParseLevel([t] + tail, kids) == ParseLevel(tail, kids + [Leaf(t)])
  {
    assert ([t] + tail)[0] == t && ([t] + tail)[1..] == tail;
  }

  /** One step of a level on `(`: the nested level's node becomes a child. */
  lemma LevelOnOpen(tail: seq<string>, kids: seq<AstNode>)
    ensures var inner := ParseLevel(tail, []);
            ParseLevel(["("] + tail, kids) == ParseLevel(inner.rest, kids + [inner.tree])
  {
    assert (["("] + tail)[0] == "(" && (["("] + tail)[1..] == tail;
  }

  /** One step of a level on `)`: the level ends. */
  lemma LevelOnClose(tail: seq<string>, kids: seq<AstNode>)
    ensures ParseLevel([")"] + tail, kids) == Parsed(Node(kids), tail)
  {
    assert ([")"] + tail)[0] == ")" && ([")"] + tail)[1..] == tail;
  }

  /** The leaves of a sequence of children grow by those of a new last child. */
  lemma LeavesOfSnoc(kids: seq<AstNode>, c: AstNode)
    ensures LeavesOf(kids + [c]) == LeavesOf(kids) + Leaves(c)
  {
    assert (kids + [c])[..|kids|] == kids;
  }

  /** A level only appends to the children it was given, and consumes
      tokens from the front only: what it leaves is a suffix of its input. */
  lemma {:induction false} ParseExtends(toks: seq<string>, kids: seq<AstNode>)
    ensures var r := ParseLevel(toks, kids);
            && |r.tree.children| >= |kids| && r.tree.children[..|kids|] == kids
            && r.rest == toks[|toks| - |r.rest|..]
    decreases |toks|
  {
    if |toks| == 0 || toks[0] == ")" {
    } else if toks[0] == "(" {
      var inner := ParseLevel(toks[1..], []);
      ParseExtends(toks[1..], []);
      ParseExtends(inner.rest, kids + [inner.tree]);
      assert (kids + [inner.tree])[..|kids|] == kids;
    } else {
      ParseExtends(toks[1..], kids + [Leaf(toks[0])]);
      assert (kids + [Leaf(toks[0])])[..|kids|] == kids;
    }
  }

  /** Every token other than a bracket becomes a leaf with the same text, in
      input order: the leaves gained by a level are exactly the words of the
      tokens it consumed. */
  lemma {:induction false} ParseKeepsWords(toks: seq<string>, kids: seq<AstNode>)
    ensures KeepsWords(toks, kids)
    decreases |toks|
  {
    if |toks| == 0 || toks[0] == ")" {
    } else if toks[0] == "(" {
      var inner := ParseLevel(toks[1..], []);
      ParseKeepsWords(toks[1..], []);
      ParseKeepsWords(inner.rest, kids + [inner.tree]);
      KeepsWordsOnOpen(toks, kids);
    } else {
      ParseKeepsWords(toks[1..], kids + [Leaf(toks[0])]);
      KeepsWordsOnWord(toks, kids);
    }
  }

  /** The leaves a level ends with, followed by the words it leaves, are the
      leaves it started with followed by the words it was handed. */
  ghost predicate KeepsWords(toks: seq<string>, kids: seq<AstNode>) {
    var r := ParseLevel(toks, kids);
    LeavesOf(r.tree.children) + Words(r.rest) == LeavesOf(kids) + Words(toks)
  }

  lemma KeepsWordsOnOpen(toks: seq<string>, kids: seq<AstNode>)
    requires |toks| > 0 && toks[0] == "("
    requires KeepsWords(toks[1..], [])
    requires KeepsWords(ParseLevel(toks[1..], []).rest, kids + [ParseLevel(toks[1..], []).tree])
    ensures KeepsWords(toks, kids)
  {
    var inner := ParseLevel(toks[1..], []);
    var r := ParseLevel(inner.rest, kids + [inner.tree]);
    assert ParseLevel(toks, kids) == r;
    assert Words(toks) == Words(toks[1..]);
    WordsAfterOpen(LeavesOf(kids), LeavesOf(inner.tree.children), Words(inner.rest), Words(toks[1..]));
    LeavesOfSnoc(kids, inner.tree);
  }

  /** The associativity step of `KeepsWordsOnOpen` and `KeepsWordsOnWord`. */
  lemma WordsAfterOpen(k: seq<string>, c: seq<string>, w: seq<string>, all: seq<string>)
    requires c + w == [] + all
    ensures k + c + w == k + all
  {
    assert [] + all == all;
    assert k + c + w == k + (c + w);
  }

  lemma KeepsWordsOnWord(toks: seq<string>, kids: seq<AstNode>)
    requires |toks| > 0 && toks[0] != "(" && toks[0] != ")"
    requires KeepsWords(toks[1..], kids + [Leaf(toks[0])])
    ensures KeepsWords(toks, kids)
  {
    var t := toks[0];
    var r := ParseLevel(toks[1..], kids + [Leaf(t)]);
    assert ParseLevel(toks, kids) == r;
    assert Words(toks) == [t] + Words(toks[1..]);
    LeavesOfSnoc(kids, Leaf(t));
    WordsAfterOpen(LeavesOf(kids), [t], Words(toks[1..]), Words(toks));
  }

  /** The rendering of plain trees followed by `)` parses back to those
      trees, leaving exactly what followed the `)`. */
  lemma {:induction false} ParseUnparseClosed(ch: seq<AstNode>, rest: seq<string>, kids: seq<AstNode>)
    requires forall i | 0 <= i < |ch| :: Plain(ch[i])
    ensures ClosedRoundTrip(ch, rest, kids)
    decreases ch
  {
    if |ch| == 0 {
      assert UnparseAll(ch) + [")"] + rest == [")"] + rest;
      LevelOnClose(rest, kids);
      assert kids + ch == kids;
    } else {
      var c := ch[0];
      ParseUnparseClosed(ch[1..], rest, kids + [c]);
      assert Plain(c);
      if c.Leaf? {
        ClosedOnLeaf(ch, rest, kids);
      } else {
        ParseUnparseClosed(c.children, UnparseAll(ch[1..]) + [")"] + rest, []);
        ClosedOnNode(ch, rest, kids);
      }
    }
  }

  ghost predicate ClosedRoundTrip(ch: seq<AstNode>, rest: seq<string>, kids: seq<AstNode>) {
    ParseLevel(UnparseAll(ch) + [")"] + rest, kids) == Parsed(Node(kids + ch), rest)
  }

  lemma ClosedOnLeaf(ch: seq<AstNode>, rest: seq<string>, kids: seq<AstNode>)
    requires |ch| > 0 && ch[0].Leaf? && Plain(ch[0])
    requires ClosedRoundTrip(ch[1..], rest, kids + [ch[0]])
    ensures ClosedRoundTrip(ch, rest, kids)
  {
    var s := ch[0].text;
    var tail := UnparseAll(ch[1..]) + [")"] + rest;
    assert UnparseAll(ch) + [")"] + rest == [s] + tail;
    LevelOnWord(s, tail, kids);
    assert kids + [ch[0]] + ch[1..] == kids + ch;
  }

  /** The bracket bookkeeping of `ClosedOnNode`. */
  lemma Reassociate(inner: seq<string>, after: seq<string>, rest: seq<string>)
    ensures ["("] + inner + [")"] + after + [")"] + rest == ["("] + (inner + [")"] + (after + [")"] + rest))
  {
  }

  lemma ClosedOnNode(ch: seq<AstNode>, rest: seq<string>, kids: seq<AstNode>)
    requires |ch| > 0 && ch[0].Node?
    requires ClosedRoundTrip(ch[1..], rest, kids + [ch[0]])
    requires ClosedRoundTrip(ch[0].children, UnparseAll(ch[1..]) + [")"] + rest, [])
    ensures ClosedRoundTrip(ch, rest, kids)
  {
    var g := ch[0].children;
    var tail := UnparseAll(ch[1..]) + [")"] + rest;
    assert UnparseAll(ch) == Unparse(ch[0]) + UnparseAll(ch[1..]);
    assert Unparse(ch[0]) == ["("] + UnparseAll(g) + [")"];
    Reassociate(UnparseAll(g), UnparseAll(ch[1..]), rest);
    assert [] + g == g;
    LevelOnOpen(UnparseAll(g) + [")"] + tail, kids);
    assert kids + [ch[0]] + ch[1..] == kids + ch;
  }

  /** The rendering of plain trees with nothing after it parses back to
      those trees and consumes everything. */
  lemma {:induction false} ParseUnparseToEnd(ch: seq<AstNode>, kids: seq<AstNode>)
    requires forall i | 0 <= i < |ch| :: Plain(ch[i])
    ensures ParseLevel(UnparseAll(ch), kids) == Parsed(Node(kids + ch), [])
    decreases ch
  {
    if |ch| == 0 {
      assert kids + ch == kids;
    } else {
      var c := ch[0];
      var tail := UnparseAll(ch[1..]);
      ParseUnparseToEnd(ch[1..], kids + [c]);
      assert kids + [c] + ch[1..] == kids + ch;
      assert Plain(c);
      match c
      case Leaf(s) =>
        assert UnparseAll(ch) == [s] + tail;
        LevelOnWord(s, tail, kids);
      case Node(g) =>
        assert UnparseAll(ch) == ["("] + (UnparseAll(g) + [")"] + tail);
        ParseUnparseClosed(g, tail, []);
        assert [] + g == g;
        LevelOnOpen(UnparseAll(g) + [")"] + tail, kids);
    }
  }

  /** Round trip: `parse` of the tokens of plain trees is the node holding
      them; in particular the empty input gives an empty node. */
  lemma ParseOfUnparse(ch: seq<AstNode>)
    requires forall i | 0 <= i < |ch| :: Plain(ch[i])
    ensures ParseTokens(UnparseAll(ch)) == Parsed(Node(ch), [])
  {
    ParseUnparseToEnd(ch, []);
    assert [] + ch == ch;
  }

  /** A `(` whose `)` never comes is closed silently at the end of input. */
  lemma MissingCloseIsClosed(ch: seq<AstNode>)
    requires forall i | 0 <= i < |ch| :: Plain(ch[i])
    ensures ParseTokens(["("] + UnparseAll(ch)) == Parsed(Node([Node(ch)]), [])
  {
    ParseUnparseToEnd(ch, []);
    assert [] + ch == ch;
    LevelOnOpen(UnparseAll(ch), []);
    assert ParseLevel([], [Node(ch)]) == Parsed(Node([Node(ch)]), []);
  }

  /** A `)` with no `(` ends the top level early: the tokens after it are
      left in the iterator, unparsed. */
  lemma StrayCloseEndsLevel(ch: seq<AstNode>, rest: seq<string>)
    requires forall i | 0 <= i < |ch| :: Plain(ch[i])
    ensures ParseTokens(UnparseAll(ch) + [")"] + rest) == Parsed(Node(ch), rest)
  {
    ParseUnparseClosed(ch, rest, []);
    assert ClosedRoundTrip(ch, rest, []);
    assert [] + ch == ch;
  }
}
