/** The parts of PhpParser's name and node objects that the visitor uses:
    a name is a sequence of namespace segments carrying an attribute map,
    and a node is anything that carries an attribute map. */
module Names {
  import opened Common

  type Attributes = map<string, Scalar>

  /** An AST node, seen only through its attributes (start line, comments, ...). */
  datatype Node = Node(attributes: Attributes)

  /** A (possibly partial) namespace path such as Foo\Bar, with its attributes. */
  datatype Name = Name(parts: seq<string>, attributes: Attributes)
  {
    /** Name::setAttribute: one key set, every other attribute kept. */
    function WithAttribute(key: string, v: Scalar): (r: Name)
      ensures r.parts == parts
      ensures r.attributes.Keys == attributes.Keys + {key}
      ensures r.attributes[key] == v
      ensures forall k :: k in attributes && k != key ==> r.attributes[k] == attributes[k]
    {
      Name(parts, attributes[key := v])
    }

    /** Name::prepend with a prefix free of separators: one new leading segment. */
    function Prepend(prefix: string): (r: Name)
      ensures |r.parts| == |parts| + 1 && r.parts[0] == prefix && r.parts[1..] == parts
      ensures r.attributes == attributes
    {
      Name([prefix] + parts, attributes)
    }

    /** `clone $name` used as the originating node: the same attributes. */
    function AsNode(): (n: Node)
      ensures n.attributes == attributes
    {
      Node(attributes)
    }
  }
}
