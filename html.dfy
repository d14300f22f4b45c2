/** The tokens the `golang.org/x/net/html` tokenizer hands out, as far as the
    page check looks at them. The tokenizer itself is not modelled: a page is
    the sequence of tokens it would produce, and the end of that sequence
    stands for the ErrorToken that the tokenizer returns at the end of the
    input or on a read error (and keeps returning afterwards). */
module Html {

  datatype TokenType =
    | TextToken
    | StartTagToken
    | EndTagToken
    | SelfClosingTagToken
    | CommentToken
    | DoctypeToken

  datatype Attribute = Attribute(key: string, val: string)

  /** `data` is the tag name of a tag token and the text of the others. */
  datatype Token = Token(kind: TokenType, data: string, attrs: seq<Attribute>)
}
