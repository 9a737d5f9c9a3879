/** The abstract syntax the derive and function-like macros receive. Token
    trees, spans and paths are reduced to what the macros inspect. */
module Syntax {
  import opened Wrappers

  /** One token of a macro's input stream. */
  datatype Token = Ident(name: string) | Comma | IntLit(value: nat) | Other(text: string)

  /** A field's type, kept opaque: the macros only copy it into generated code. */
  datatype Ty = Ty(name: string)

  /** An outer attribute `#[path(args)]`: its path segments and, when written
      with parentheses, the tokens between them. */
  datatype Attr = Attr(path: seq<string>, args: Option<seq<Token>>) {
    /** `Path::get_ident`: the identifier of a path that is exactly one segment.
        A leading `::` and generic arguments are not part of this path model,
        so the `None` they cause is not captured. */
    function GetIdent(): Option<string>
    {
      if |path| == 1 then Some(path[0]) else None
    }
  }

  datatype Field = Field(ident: Option<string>, attrs: seq<Attr>, ty: Ty)

  /** A struct body: braces with named fields, parentheses with positional
      fields, or nothing at all. */
  datatype Fields = Named(list: seq<Field>) | Unnamed(list: seq<Field>) | Unit {
    function All(): seq<Field>
    {
      if Unit? then [] else list
    }
  }

  datatype Data = Struct(fields: Fields) | Enum | Union

  datatype DeriveInput = DeriveInput(ident: string, data: Data)
}
