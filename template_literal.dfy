/** JavaScript template literals over the two parameters that every receiver
    operation takes: each operation is an arrow `(model, id) => `...`` whose
    body is one template literal. */
module TemplateLiteral {

  /** One piece of a template literal: literal text, or one of the two
      substitutions `${model}` and `${id}`. */
  datatype Part = Text(text: string) | Model | Id

  /** The pieces of a template literal, left to right. */
  type Template = seq<Part>

  /** The string a single piece contributes. */
  function Piece(p: Part, model: string, id: string): string
  {
    match p
    case Text(s) => s
    case Model => model
    case Id => id
  }

  /** Evaluates a template literal whose substitutions are strings: the
      pieces are concatenated left to right. */
  function Render(t: Template, model: string, id: string): string
  {
    if t == [] then "" else Piece(t[0], model, id) + Render(t[1..], model, id)
  }

  /** The positional argument i as the callee sees it: a missing argument is
      `undefined`, which a template literal renders as "undefined". */
  function Arg(args: seq<string>, i: nat): string
  {
    if i < |args| then args[i] else "undefined"
  }

  /** Calling `(model, id) => `t`` with the argument list `args`: the first
      two arguments are bound in order and any further ones are ignored. */
  function Call(t: Template, args: seq<string>): string
  {
    Render(t, Arg(args, 0), Arg(args, 1))
  }

  /** Evaluation distributes over juxtaposition of templates. */
  lemma {:induction false} RenderAppend(s: Template, t: Template, model: string, id: string)
    ensures Render(s + t, model, id) == Render(s, model, id) + Render(t, model, id)
  {
    if s == [] {
      assert s + t == t;
    } else {
      assert (s + t)[0] == s[0];
      assert (s + t)[1..] == s[1..] + t;
      RenderAppend(s[1..], t, model, id);
    }
  }

  /** A one-piece template renders as that piece. */
  lemma RenderSingle(p: Part, model: string, id: string)
    ensures Render([p], model, id) == Piece(p, model, id)
  {
    assert [p][1..] == [];
  }

  /** Evaluation of a template read piece by piece from the front. */
  lemma {:induction false} RenderCons(p: Part, t: Template, model: string, id: string)
    ensures Render([p] + t, model, id) == Piece(p, model, id) + Render(t, model, id)
  {
    RenderAppend([p], t, model, id);
    RenderSingle(p, model, id);
  }
}
