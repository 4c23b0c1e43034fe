/** The external collaborators of the playground, left uninterpreted: the
    browser's JSON parser and serializer and the `@huggingface/jinja`
    `Template` class. Each may fail with a message, as a thrown error does. */
module Externals {
  import opened Wrappers
  import opened JsonValues

  /** `Ast` stands for a constructed `Template` object. */
  datatype Engine<!Ast> = Engine(
    parseJson: string -> Result<Json, string>,      // JSON.parse, response.json()
    stringifyJson: Json -> string,                  // JSON.stringify(value, null, 2)
    construct: string -> Result<Ast, string>,       // new Template(text)
    render: (Ast, Json) -> Result<string, string>,  // template.render(data)
    format: Ast -> Result<string, string>)          // template.format()

  /** The parser produces only doubles, as `JSON.parse` does. */
  ghost predicate ParsesDoubles<Ast>(lib: Engine<Ast>) {
    forall text :: lib.parseJson(text).Success? ==> DoubleValued(lib.parseJson(text).value)
  }

  /** The parser reads back whatever the serializer wrote, for every value
      whose numbers are doubles. `JSON.stringify` writes each double as the
      shortest decimal that parses back to it, so JavaScript's own library
      is of this kind, for every string the model can hold. */
  ghost predicate RoundTrips<Ast>(lib: Engine<Ast>) {
    forall v :: DoubleValued(v) ==> lib.parseJson(lib.stringifyJson(v)) == Success(v)
  }

  /** The outcome of `renderTemplate`: parse the context, construct the
      template, render it; the first failure wins. */
  function RenderResult<Ast>(lib: Engine<Ast>, template: string, context: string): (r: Result<string, string>)
    ensures lib.parseJson(context).Failure? ==> r == Failure(lib.parseJson(context).error)
    ensures lib.parseJson(context).Success? && lib.construct(template).Failure? ==>
      r == Failure(lib.construct(template).error)
    ensures r.Success? <==>
      && lib.parseJson(context).Success?
      && lib.construct(template).Success?
      && lib.render(lib.construct(template).value, lib.parseJson(context).value).Success?
    ensures lib.parseJson(context).Success? && lib.construct(template).Success? ==>
      r == lib.render(lib.construct(template).value, lib.parseJson(context).value)
  {
    match lib.parseJson(context)
    case Failure(e) => Failure(e)
    case Success(data) =>
      match lib.construct(template)
      case Failure(e) => Failure(e)
      case Success(t) => lib.render(t, data)
  }

  /** The outcome of `formatTemplate`: construct the template, then format it. */
  function FormatResult<Ast>(lib: Engine<Ast>, template: string): (r: Result<string, string>)
    ensures lib.construct(template).Failure? ==> r == Failure(lib.construct(template).error)
    ensures r.Success? <==>
      lib.construct(template).Success? && lib.format(lib.construct(template).value).Success?
    ensures lib.construct(template).Success? ==> r == lib.format(lib.construct(template).value)
  {
    match lib.construct(template)
    case Failure(e) => Failure(e)
    case Success(t) => lib.format(t)
  }
}
