# Jinja playground: verified model of the template loader and render state

The playground is a single-page app for editing a chat template (Jinja
syntax), a JSON context and watching the rendered text. Its one piece of
real logic is `fetchModelConfig` in `src/App.tsx`. This handler fetches a
model's configuration from the Hugging Face hub and does four things:

1. It picks `processor_config`, else `tokenizer_config`, else `{}`, by
   JavaScript truthiness.
2. It splits off `chat_template`.
3. It reduces the other fields to strings. Strings stay as they are, and
   `AddedToken` objects become their `content`.
4. It merges the result over the parsed context, with fetched values winning.

The `App` component also holds the template text, the context text, the
rendered output, the render error and the loading flag. Three handlers
update them: `renderTemplate`, `fetchModelConfig` and `formatTemplate`.

Two behaviours of the code are easy to misread, and the model follows the
code. A truthy processor config that has no template makes the load fail;
the loader does not fall through to the tokenizer config. A failed load
after a non-empty id still sets and clears `loading`.

The project has five modules:

- `Wrappers` (wrappers.dfy): `Option` and `Result`. `None` plays JavaScript's
  `undefined`, and `Failure` plays a caught exception.
- `JsonValues` (json.dfy): parsed JSON values. It also holds truthiness,
  property reads (a read through `undefined` or `null` is a TypeError) and
  object spread. Spread includes the index-keyed spread of arrays and
  strings, with decimal keys proved injective.
- `ConfigContext` (config.dfy): selection, split, reduction and merge as
  pure functions, with lemmas about them. The reduction loop is also a
  method with invariants, proved equal to the reduction function.
- `Externals` (engine.dfy): a record of uninterpreted total functions.
  These stand for `JSON.parse`, `JSON.stringify`, `new Template`,
  `template.render` and `template.format`, and each may fail with a message.
  It also defines the outcomes of rendering and formatting.
- `Playground` (app.dfy): the `App` class with its five state fields and the
  three handlers. The class holds the external library it was constructed
  with. The network response is an input (`Response`). A toast is returned
  as a value. `GreetingFetch` is a client that runs the load handler on an
  example configuration.

## Model

| member | source | states |
|---|---|---|
| JsonValues.Truthy | src/App.tsx:94-96 | the falsy values are exactly undefined, null, false, zero and the empty string; everything else, including every array and object, is truthy |
| JsonValues.Get | src/App.tsx:93-94 | a property read gives a value exactly when the value is an object with that own key, and then gives that field |
| JsonValues.Read | src/App.tsx:93-94 | reading a property fails exactly when the value read from is undefined or null; otherwise it gives the object's own field or undefined |
| JsonValues.Spread | src/App.tsx:114-117 | spreading an object copies its fields; an array or string contributes its elements or characters under decimal index keys and no other key; null, booleans and numbers contribute nothing |
| JsonValues.DecimalInjective | src/App.tsx:114-117 | two indices with the same decimal key are equal, so an array's spread loses no element |
| ConfigContext.SelectConfig | src/App.tsx:93-94 | fails exactly when the body or its `config` is null or undefined; a truthy processor config is chosen, a truthy tokenizer config only when the processor config is falsy, else `{}` |
| ConfigContext.SplitTemplate | src/App.tsx:93-96 | a template is found exactly when `chat_template` is a non-empty string, and it is that string; the rest holds every other own property unchanged and never `chat_template` |
| ConfigContext.IsAddedToken | src/App.tsx:105-110 | a value is an added token exactly when it is an object whose `__type` is the string "AddedToken" and whose `content` is a string |
| ConfigContext.ContextValue | src/App.tsx:103-112 | a sibling contributes a string exactly when it is a string (itself) or an added token (its content) |
| ConfigContext.Assign | src/App.tsx:104-111 | assigning into `newInput` sets any key but `__proto__` and keeps the other entries; a `__proto__` assignment of a string changes nothing |
| ConfigContext.Reduced | src/App.tsx:101-113 | a key is in the reduced set exactly when it is not `__proto__` and its sibling is a string or an added token; strings are kept verbatim and added tokens give their content |
| ConfigContext.ReduceSiblings | src/App.tsx:101-113 | the key-by-key insertion loop produces exactly the reduced set |
| ConfigContext.Merge | src/App.tsx:114-117 | merged keys are the current keys plus the fetched keys; fetched keys carry the fetched string; every other key keeps its current value |
| ConfigContext.LoadTemplate | src/App.tsx:93-96 | a selection failure propagates; a missing or empty template fails with "No chat template found in model config"; a found template loads with exactly the reduced rest as siblings; a success never carries `chat_template` among the siblings and has a non-empty template |
| ConfigContext.ProcessorConfigShadowsTokenizer | src/App.tsx:93-96 | a truthy processor config without `chat_template` makes the load fail, whatever the tokenizer config holds |
| ConfigContext.ProcessorTemplateLoads | src/App.tsx:93-97 | a truthy processor config with a non-empty template loads that template with its reduced siblings |
| ConfigContext.TokenizerConfigFallback | src/App.tsx:93-97 | with a falsy processor config, the tokenizer config's non-empty template is loaded with its reduced siblings |
| ConfigContext.LoadedSiblingsExact | src/App.tsx:101-113 | after a successful load, the fetched keys are exactly the selected object's string and added-token siblings other than `chat_template` and `__proto__`, with their strings |
| Externals.RenderResult | src/App.tsx:60-70 | a context parse failure comes first, then a construct failure, and otherwise the outcome is the render's own, its text or its error message; success exactly when all three steps succeed |
| Externals.FormatResult | src/App.tsx:142-146 | a construct failure comes first, and otherwise the outcome is the format's own, its text or its error message; success exactly when both succeed |
| Playground.ConfigUrl | src/App.tsx:85-87 | the request address is the hub's model API prefix, the model id, then `?expand=config` |
| Playground.LoadOutcome | src/App.tsx:84-96 | a network failure, an HTTP error naming the status text, or a body parse failure each fails with its message; once the body parses the outcome is the config load's, including its "No chat template found in model config" error; success exactly when the body parses and the configuration yields a template |
| Playground.MergedContext | src/App.tsx:99-121 | a new context text exists exactly when the current text parses, and it is the serialized merge over the spread of that value |
| Playground.App.constructor | src/App.tsx:26-54 | starts with the default template, the default context serialized by the same library the handlers use, empty output, no error and not loading |
| Playground.App.RenderTemplate | src/App.tsx:60-70 | on success the output is the rendered text and the error is cleared; on any failure the error is set and the output is unchanged; template, context and loading are untouched |
| Playground.App.FetchModelConfig | src/App.tsx:73-140 | an empty id issues no request, shows "Please enter a model ID" and changes nothing; otherwise one request is made and loading ends false; on failure template and context are unchanged; on success the template is replaced and the context becomes the merge, or stays unchanged when it does not parse, with the success toast either way |
| Playground.App.FormatTemplate | src/App.tsx:142-158 | on success the template becomes the formatted text with a confirmation toast; on failure the template is unchanged and the error is shown |
| JsonValues.HalfIsDouble | src/App.tsx:100 | a decimal equal to a dyadic rational in the double range, such as 0.5, is one of the numbers `JSON.parse` can produce exactly |
| JsonValues.TenthIsNotDouble | src/App.tsx:100 | 0.1 is not a double, so nothing is claimed about reading it back exactly |
| Playground.MergeDoubleValued | src/App.tsx:114-117 | merging fetched strings over an object whose numbers are all doubles leaves every number a double |
| Playground.MergeOneString | src/App.tsx:114-117 | merging a single fetched string sets that key to the string and keeps every other key and value |
| Playground.MergedContextParses | src/App.tsx:114-118 | with a JSON library that reads back what it writes for double-valued values, and a current context whose numbers are doubles, the new context parses to the current object with the fetched strings merged over it, keeping unfetched keys and adding no others |
| Playground.HttpErrorNamesStatus | src/App.tsx:88-89 | the error message for a non-ok response ends with the response's status text |
| Playground.GreetingSelectsTokenizer | src/App.tsx:93-94 | a configuration with only a tokenizer sub-object selects that sub-object |
| Playground.GreetingSplits | src/App.tsx:93-94 | the greeting tokenizer sub-object splits into the template "{{ greeting }}" and the single sibling `greeting` |
| Playground.GreetingMerges | src/App.tsx:93-118 | with a library that parses only doubles and reads back what it writes, the greeting response loads its template and sibling, and the merged context text parses to the old object with `greeting` set to "hi" |
| Playground.GreetingFetch | src/App.tsx:96-118 | with a library that parses only doubles and reads back what it writes, that configuration and an object context, after `FetchModelConfig` the template is "{{ greeting }}", loading is off, and the context text parses to the old object with `greeting` set to "hi" and every other key kept |
| Playground.GreetingLoads | src/App.tsx:93-113 | a tokenizer config with template "{{ greeting }}" and sibling `greeting: "hi"` loads that template and exactly that sibling |

## Left out

- The Jinja language: parsing, constructing, rendering and formatting belong to `@huggingface/jinja`. They are uninterpreted functions here.
- `JSON.parse` and `JSON.stringify` are uninterpreted too. The 2-space text layout and key order are not modelled. Where text must be read back, two lemma premises stand for the real library: `ParsesDoubles` (every parsed number is a double) and `RoundTrips` (the parser reads back what the serializer writes, for values whose numbers are all doubles).
- A JSON number is any canonical decimal `significand * 10^exponent`. `IsDouble` and `DoubleValued` pick out the decimals that are exactly finite doubles, and only those are read back exactly. Rounding a literal such as `0.1` to the nearest double is the parser's business and is not modelled. A literal too large for a double (which `JSON.parse` turns into `Infinity`, and `JSON.stringify` writes back as `null`) is not modelled. Negative zero is identified with zero.
- Asynchrony. `FetchModelConfig` runs from the click to the response as one step. Because of this, two things are not modelled. First, `loading` being true while the request is in flight is not observable. Second, overlapping requests are not modelled. The handler's closure parses the context text from the moment of the click, so edits made during the await would be overwritten. The "Load Template" button is disabled while loading. That is a UI guard, not part of the handler, and it is not modelled.
- The URL is built from the model id without encoding. The network is modelled as a function from URL to `Response`.
- Error texts that come from the JavaScript engine (the TypeError for reading through `undefined` or `null`) are representative wording, not engine output. `error instanceof Error ? error.message : String(error)` is modelled as the failure's message string.
- ConfigContext.SplitTemplate: a truthy `chat_template` that is not a string (a number, `true`, or an array or object such as a list of named templates) is treated as absent. The source would store that value as the template.
- JsonValues.Spread: strings are sequences of Unicode scalar values, while JavaScript strings are sequences of UTF-16 code units. Spreading a string therefore gives one entry per scalar value, and JavaScript gives one per code unit, so the two differ for characters outside the Basic Multilingual Plane. A lone surrogate, which `JSON.parse` produces from text such as `"\ud800"`, has no representation in the model at all.
- Console logging, toast rendering (toasts are returned values), the clipboard copy with its 2-second reset, the theme toggle, the Monaco editors and their `value || ""` change handlers, the model-id input, the resizable panels, and the `useEffect` that re-renders after every change. All of these are UI wiring or browser APIs.
