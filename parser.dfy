/** The token-tree builder (src/parser.rs): it reads tokens from a shared
    iterator and nests a new node at every `(`, closing it at the matching
    `)` or when the tokens run out. It never reports an error. */
module Parser {
  import opened Optional

  datatype AstNode = Leaf(text: string) | Node(children: seq<AstNode>)
  {
    /** `AstNode::push`: a node gains `val` as its last child; a leaf is
        left as it is. */
    function Push(val: AstNode): (r: AstNode)
      ensures Node? ==> r.Node? && |r.children| == |children| + 1
                        && r.children[..|children|] == children && r.children[|children|] == val
      ensures Leaf? ==> r == this
    {
      match this
      case Node(v) => Node(v + [val])
      case Leaf(_) => this
    }
  }

  /** The iterator `parse` shares with its recursive calls: a fixed token
      sequence and how much of it has been taken. */
  class TokenStream {
    const tokens: seq<string>
    var pos: nat

    ghost predicate Valid()
      reads this
    {
      pos <= |tokens|
    }

    /** The tokens `next` has not yet returned. */
    function Remaining(): (r: seq<string>)
      requires Valid()
      reads this
      ensures |r| == |tokens| - pos
    {
      tokens[pos..]
    }

    constructor(toks: seq<string>)
      ensures Valid() && tokens == toks && pos == 0 && Remaining() == toks
    {
      tokens := toks;
      pos := 0;
    }

    /** `Iterator::next`: the front token, if any, which is then consumed. */
    method Next() returns (t: Option<string>)
      requires Valid()
      modifies this
      ensures Valid()
      ensures old(Remaining()) == [] ==> t == None && Remaining() == []
      ensures old(Remaining()) != [] ==> t == Some(old(Remaining())[0]) && Remaining() == old(Remaining())[1..]
      ensures pos >= old(pos)
    {
      if pos < |tokens| {
        t := Some(tokens[pos]);
        pos := pos + 1;
      } else {
        t := None;
      }
    }
  }

  /** A finished parse: the tree and the tokens left for the caller. */
  datatype Parsed = Parsed(tree: AstNode, rest: seq<string>)

  /** One level of `parse`, with `kids` already collected: tokens are read
      until a `)` (which is consumed) or the end. A `(` parses a nested
      level, whose node becomes one child; every other token becomes a
      leaf. The result is always a node, and it never gives back more
      tokens than it was handed. */
  function ParseLevel(toks: seq<string>, kids: seq<AstNode>): (r: Parsed)
    ensures r.tree.Node?
    ensures |r.rest| <= |toks|
    decreases |toks|
  {
    if |toks| == 0 then Parsed(Node(kids), [])
    else if toks[0] == ")" then Parsed(Node(kids), toks[1..])
    else if toks[0] == "(" then
      var inner := ParseLevel(toks[1..], []);
      ParseLevel(inner.rest, kids + [inner.tree])
    else ParseLevel(toks[1..], kids + [Leaf(toks[0])])
  }

  /** `parse` on a fresh iterator over `toks`. */
  function ParseTokens(toks: seq<string>): (r: Parsed)
    ensures r.tree.Node?
  {
    ParseLevel(toks, [])
  }

  /** `parse`: builds the node of one level in place, taking tokens from
      `iter` and recursing on `(`. */
  method Parse(iter: TokenStream) returns (ast: AstNode)
    requires iter.Valid()
    modifies iter
    ensures iter.Valid() && iter.pos >= old(iter.pos)
    ensures Parsed(ast, iter.Remaining()) == ParseTokens(old(iter.Remaining()))
    decreases |iter.tokens| - iter.pos
  {
    ast := Node([]);
    while true
      invariant iter.Valid() && iter.pos >= old(iter.pos) && ast.Node?
      invariant ParseLevel(iter.Remaining(), ast.children) == ParseTokens(old(iter.Remaining()))
      decreases |iter.tokens| - iter.pos
    {
      var t := iter.Next();
      match t {
        case None =>
          break;
        case Some(token) =>
          if token == "(" {
            var child := Parse(iter);
            ast := ast.Push(child);
          } else if token == ")" {
            break;
          } else {
            ast := ast.Push(Leaf(token));
          }
      }
    }
  }
}
