/** The parsed HTML document, shaped as golang.org/x/net/html builds it. */
module Html {

  datatype NodeType = ErrorNode | TextNode | DocumentNode | ElementNode | CommentNode | DoctypeNode | RawNode

  datatype Attribute = Attribute(namespace: string, key: string, val: string)

  /**
   * A node with its attributes in source order and its children in order
   * (the FirstChild/NextSibling chain of the Go node).
   */
  datatype Node = Node(kind: NodeType, data: string, attr: seq<Attribute>, children: seq<Node>)
}
