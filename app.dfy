/** The state of the playground component (`App` in src/App.tsx) and the
    three handlers that update it: `renderTemplate`, `fetchModelConfig` and
    `formatTemplate`. */
module Playground {
  import opened Wrappers
  import opened JsonValues
  import opened ConfigContext
  import opened Externals

  /** What the network delivers for the model-config request. */
  datatype Response =
    | NetworkFailure(message: string)  // fetch itself rejects
    | HttpNotOk(statusText: string)    // response.ok is false
    | HttpOk(body: string)             // the body text, read by response.json()

  /** A toast notification; `destructive` is the error variant. */
  datatype Toast = Toast(title: string, description: string, destructive: bool)

  const FetchFailedPrefix := "Failed to fetch model config: "
  const ApiPrefix := "https://huggingface.co/api/models/"
  const ExpandQuery := "?expand=config"

  /** The hub API address for a model's configuration. */
  function ConfigUrl(modelId: string): (url: string)
    ensures |url| == |ApiPrefix| + |modelId| + |ExpandQuery|
    ensures url[..|ApiPrefix|] == ApiPrefix
    ensures url[|ApiPrefix|..|ApiPrefix| + |modelId|] == modelId
    ensures url[|ApiPrefix| + |modelId|..] == ExpandQuery
  {
    ApiPrefix + modelId + ExpandQuery
  }

  /** Everything `fetchModelConfig` decides before it touches the template:
      the HTTP status, the body's JSON, the sub-object and its template. */
  function LoadOutcome<Ast>(lib: Engine<Ast>, response: Response): (r: Result<Loaded, string>)
    ensures response.NetworkFailure? ==> r == Failure(response.message)
    ensures response.HttpNotOk? ==> r == Failure(FetchFailedPrefix + response.statusText)
    ensures response.HttpOk? && lib.parseJson(response.body).Failure? ==>
      r == Failure(lib.parseJson(response.body).error)
    ensures r.Success? <==>
      response.HttpOk? && lib.parseJson(response.body).Success?
      && LoadTemplate(lib.parseJson(response.body).value).Success?
    ensures response.HttpOk? && lib.parseJson(response.body).Success? ==>
      r == LoadTemplate(lib.parseJson(response.body).value)
  {
    match response
    case NetworkFailure(message) => Failure(message)
    case HttpNotOk(statusText) => Failure(FetchFailedPrefix + statusText)
    case HttpOk(body) =>
      match lib.parseJson(body)
      case Failure(e) => Failure(e)
      case Success(result) => LoadTemplate(result)
  }

  /** The new context text after a successful load, or `None` when the
      current context text does not parse (the source then logs the error
      and keeps the text). */
  function MergedContext<Ast>(lib: Engine<Ast>, context: string, siblings: map<string, string>): (r: Option<string>)
    ensures r.Some? <==> lib.parseJson(context).Success?
    ensures r.Some? ==>
      r.value == lib.stringifyJson(JObj(Merge(Spread(lib.parseJson(context).value), siblings)))
  {
    match lib.parseJson(context)
    case Failure(_) => None
    case Success(current) => Some(lib.stringifyJson(JObj(Merge(Spread(current), siblings))))
  }

  /** The template the page starts with. */
  const DefaultTemplate := "{% for message in messages %}{% if loop.first and messages[0]['role'] != 'system' %}{{ '<|im_start|>system\nYou are a helpful AI assistant named SmolLM, trained by Hugging Face<|im_end|>\n' }}{% endif %}{{'<|im_start|>' + message['role'] + '\n' + message['content'] + '<|im_end|>' + '\n'}}{% endfor %}{% if add_generation_prompt %}{{ '<|im_start|>assistant\n' }}{% endif %}"

  /** The context object the page starts with, before serialization. */
  function DefaultContext(): Json {
    JObj(map[
      "messages" := JArr([
        JObj(map["role" := JString("user"), "content" := JString("Hello, how are you?")]),
        JObj(map["role" := JString("assistant"), "content" := JString("I'm doing great. How can I help you today?")]),
        JObj(map["role" := JString("user"), "content" := JString("Can you tell me a joke?")])
      ]),
      "add_generation_prompt" := JBool(true),
      "bos_token" := JString("<|im_start|>"),
      "eos_token" := JString("<|im_end|>"),
      "pad_token" := JString("<|im_end|>")
    ])
  }

  class App<Ast> {
    /** The JSON library and template engine the handlers call. */
    const lib: Engine<Ast>
    var jinjaTemplate: string
    var jsonInput: string
    var renderedOutput: string
    var renderError: Option<string>
    var loading: bool

    /** The initial state: default template, serialized default context,
        empty output, no error, not loading. */
    constructor (lib: Engine<Ast>)
      ensures this.lib == lib
      ensures jinjaTemplate == DefaultTemplate
      ensures jsonInput == lib.stringifyJson(DefaultContext())
      ensures renderedOutput == "" && renderError == None && !loading
    {
      this.lib := lib;
      jinjaTemplate := DefaultTemplate;
      jsonInput := lib.stringifyJson(DefaultContext());
      renderedOutput := "";
      renderError := None;
      loading := false;
    }

    /** The output pane shows the outcome of rendering the current template
        against the current context: the result with no error, or the
        failure message beside whatever output was there. */
    ghost predicate Shows(previous: string)
      reads this
    {
      match RenderResult(lib, jinjaTemplate, jsonInput)
      case Success(out) => renderedOutput == out && renderError == None
      case Failure(msg) => renderedOutput == previous && renderError == Some(msg)
    }

    /** `renderTemplate`: on success the output is replaced and the error
        cleared; on a parse, construct or render failure only the error is
        set. */
    method RenderTemplate()
      modifies this`renderedOutput, this`renderError
      ensures Shows(old(renderedOutput))
    {
      match lib.parseJson(jsonInput) {
        case Failure(e) =>
          renderError := Some(e);
        case Success(inputData) =>
          match lib.construct(jinjaTemplate) {
            case Failure(e) =>
              renderError := Some(e);
            case Success(template) =>
              match lib.render(template, inputData) {
                case Failure(e) =>
                  renderError := Some(e);
                case Success(result) =>
                  renderedOutput := result;
                  renderError := None;
              }
          }
      }
    }

    /** `fetchModelConfig`. An empty model id changes nothing and issues no
        request. Otherwise one request goes to `ConfigUrl(modelId)`, loading
        ends false, and the template and context change only on a
        successful load; the context then takes the merge unless its text
        does not parse. */
    method FetchModelConfig(modelId: string, fetch: string -> Response)
      returns (request: Option<string>, toast: Toast)
      modifies this`jinjaTemplate, this`jsonInput, this`loading
      ensures modelId == "" ==>
        && request == None
        && toast == Toast("Error", "Please enter a model ID", true)
        && jinjaTemplate == old(jinjaTemplate) && jsonInput == old(jsonInput)
        && loading == old(loading)
      ensures modelId != "" ==> request == Some(ConfigUrl(modelId)) && !loading
      ensures modelId != "" ==>
        match LoadOutcome(lib, fetch(ConfigUrl(modelId)))
        case Failure(msg) =>
          && toast == Toast("Error fetching model config", msg, true)
          && jinjaTemplate == old(jinjaTemplate) && jsonInput == old(jsonInput)
        case Success(loaded) =>
          && toast == Toast("Template loaded", "Successfully loaded template from " + modelId, false)
          && jinjaTemplate == loaded.template
          && jsonInput == match MergedContext(lib, old(jsonInput), loaded.siblings)
                          case Some(text) => text
                          case None => old(jsonInput)
    {
      if modelId == "" {
        request := None;
        toast := Toast("Error", "Please enter a model ID", true);
        return;
      }

      loading := true;
      var error: string;
      var url := ConfigUrl(modelId);
      request := Some(url);
      var response := fetch(url);
      match response {
        case NetworkFailure(message) =>
          error := message;
        case HttpNotOk(statusText) =>
          error := FetchFailedPrefix + statusText;
        case HttpOk(body) =>
          match lib.parseJson(body) {
            case Failure(e) =>
              error := e;
            case Success(result) =>
              match SelectConfig(result) {
                case Failure(e) =>
                  error := e;
                case Success(selected) =>
                  var split := SplitTemplate(selected);
                  if split.template.Some? {
                    jinjaTemplate := split.template.value;
                    match lib.parseJson(jsonInput) {
                      case Success(currentInput) =>
                        var newInput := ReduceSiblings(split.rest);
                        var updatedInput := Merge(Spread(currentInput), newInput);
                        jsonInput := lib.stringifyJson(JObj(updatedInput));
                      case Failure(_) =>
                    }
                    toast := Toast("Template loaded", "Successfully loaded template from " + modelId, false);
                    loading := false;
                    return;
                  }
                  error := NoTemplateMessage;
              }
          }
      }
      toast := Toast("Error fetching model config", error, true);
      loading := false;
    }

    /** `formatTemplate`: the template becomes its formatted text, or stays as
        it was when construction or formatting fails. */
    method FormatTemplate() returns (toast: Toast)
      modifies this`jinjaTemplate
      ensures match FormatResult(lib, old(jinjaTemplate))
        case Success(formatted) =>
          jinjaTemplate == formatted
          && toast == Toast("Template formatted", "Jinja template has been formatted successfully", false)
        case Failure(msg) =>
          jinjaTemplate == old(jinjaTemplate) && toast == Toast("Error formatting template", msg, true)
    {
      match lib.construct(jinjaTemplate) {
        case Failure(e) =>
          toast := Toast("Error formatting template", e, true);
        case Success(template) =>
          match lib.format(template) {
            case Failure(e) =>
              toast := Toast("Error formatting template", e, true);
            case Success(formatted) =>
              jinjaTemplate := formatted;
              toast := Toast("Template formatted", "Jinja template has been formatted successfully", false);
          }
      }
    }
  }

  /** Merging strings over a double-valued object keeps it double-valued. */
  lemma MergeDoubleValued(fields: map<string, Json>, siblings: map<string, string>)
    requires DoubleValued(JObj(fields))
    ensures DoubleValued(JObj(Merge(fields, siblings)))
  {
    var merged := Merge(fields, siblings);
    forall k | k in merged
      ensures DoubleValued(merged[k])
    {
      if k in siblings {
        assert merged[k] == JString(siblings[k]);
      } else {
        assert DoubleValued(fields[k]);
      }
    }
  }

  /** With a JSON library that reads back what it writes, the context text
      after a successful load parses to the current object with the fetched
      strings merged over it: fetched keys carry the fetched strings, every
      other key keeps its value, and no other key appears. */
  lemma MergedContextParses<Ast>(lib: Engine<Ast>, context: string, fields: map<string, Json>, siblings: map<string, string>)
    requires RoundTrips(lib)
    requires lib.parseJson(context) == Success(JObj(fields))
    requires DoubleValued(JObj(fields))
    ensures MergedContext(lib, context, siblings).Some?
    ensures lib.parseJson(MergedContext(lib, context, siblings).value) == Success(JObj(Merge(fields, siblings)))
  {
    MergeDoubleValued(fields, siblings);
    var text := lib.stringifyJson(JObj(Merge(fields, siblings)));
    assert lib.parseJson(text) == Success(JObj(Merge(fields, siblings)));
  }

  /** An HTTP error's message names the response's status text. */
  lemma HttpErrorNamesStatus<Ast>(lib: Engine<Ast>, statusText: string)
    ensures LoadOutcome(lib, HttpNotOk(statusText)).Failure?
    ensures var msg := LoadOutcome(lib, HttpNotOk(statusText)).error;
      |msg| >= |statusText| && msg[|msg| - |statusText|..] == statusText
  {
  }

  /** The tokenizer sub-object of the greeting example. */
  function GreetingTokenizer(): map<string, Json> {
    map["chat_template" := JString("{{ greeting }}"), "greeting" := JString("hi")]
  }

  /** The configuration of the greeting example, as the hub sends it. */
  function GreetingConfig(): Json {
    JObj(map["config" := JObj(map["tokenizer_config" := JObj(GreetingTokenizer())])])
  }

  /** A configuration whose tokenizer sub-object has the template
      "{{ greeting }}" and the sibling `greeting: "hi"` loads that template
      and exactly that one sibling. */
  lemma GreetingLoads<Ast>(lib: Engine<Ast>, body: string)
    requires lib.parseJson(body) == Success(GreetingConfig())
    ensures LoadOutcome(lib, HttpOk(body)) == Success(Loaded("{{ greeting }}", map["greeting" := "hi"]))
  {
    GreetingSelectsTokenizer();
    GreetingSplits();
    assert Reduced(map["greeting" := JString("hi")]) == map["greeting" := "hi"];
  }

  /** The greeting configuration has no processor sub-object, so its
      tokenizer sub-object is selected. */
  lemma GreetingSelectsTokenizer()
    ensures SelectConfig(GreetingConfig()) == Success(JObj(GreetingTokenizer()))
  {
    var config := JObj(map["tokenizer_config" := JObj(GreetingTokenizer())]);
    assert Get(GreetingConfig(), "config") == Some(config);
    assert Get(config, "processor_config") == None;
    assert Get(config, "tokenizer_config") == Some(JObj(GreetingTokenizer()));
  }

  /** The greeting tokenizer sub-object splits into its template and the
      one sibling `greeting`. */
  lemma GreetingSplits()
    ensures SplitTemplate(JObj(GreetingTokenizer())) == Split(Some("{{ greeting }}"), map["greeting" := JString("hi")])
  {
    assert GreetingTokenizer() - {"chat_template"} == map["greeting" := JString("hi")];
  }

  /** The pure half of `GreetingFetch`: the greeting response loads, and the
      merged context text parses to the old object with `greeting` set. */
  lemma GreetingMerges<Ast>(lib: Engine<Ast>, body: string, context: string, fields: map<string, Json>)
    requires RoundTrips(lib) && ParsesDoubles(lib)
    requires lib.parseJson(body) == Success(GreetingConfig())
    requires lib.parseJson(context) == Success(JObj(fields))
    ensures LoadOutcome(lib, HttpOk(body)) == Success(Loaded("{{ greeting }}", map["greeting" := "hi"]))
    ensures MergedContext(lib, context, map["greeting" := "hi"]).Some?
    ensures lib.parseJson(MergedContext(lib, context, map["greeting" := "hi"]).value)
      == Success(JObj(fields["greeting" := JString("hi")]))
  {
    GreetingLoads(lib, body);
    assert DoubleValued(lib.parseJson(context).value);
    MergedContextParses(lib, context, fields, map["greeting" := "hi"]);
    MergeOneString(fields, "greeting", "hi");
  }

  /** Merging a single fetched string is a single map update. */
  lemma MergeOneString(fields: map<string, Json>, key: string, value: string)
    ensures Merge(fields, map[key := value]) == fields[key := JString(value)]
  {
    var merged := Merge(fields, map[key := value]);
    assert merged.Keys == fields[key := JString(value)].Keys;
  }

  /** Loading the greeting configuration into a page whose context is an
      object: afterwards the template is "{{ greeting }}" and the context
      text parses to the old object with `greeting` set to "hi", every other
      key kept. */
  method GreetingFetch<Ast>(app: App<Ast>, modelId: string, body: string, fetch: string -> Response,
                            ghost fields: map<string, Json>)
    requires RoundTrips(app.lib) && ParsesDoubles(app.lib)
    requires modelId != ""
    requires fetch(ConfigUrl(modelId)) == HttpOk(body)
    requires app.lib.parseJson(body) == Success(GreetingConfig())
    requires app.lib.parseJson(app.jsonInput) == Success(JObj(fields))
    modifies app
    ensures app.jinjaTemplate == "{{ greeting }}" && !app.loading
    ensures app.lib.parseJson(app.jsonInput) == Success(JObj(fields["greeting" := JString("hi")]))
  {
    GreetingMerges(app.lib, body, app.jsonInput, fields);
    ghost var merged := MergedContext(app.lib, app.jsonInput, map["greeting" := "hi"]).value;
    var _, _ := app.FetchModelConfig(modelId, fetch);
    assert app.jsonInput == merged;
  }
}
