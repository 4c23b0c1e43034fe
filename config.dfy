/** The pure part of `fetchModelConfig` (src/App.tsx): choosing the
    configuration sub-object, splitting off its chat template, reducing the
    sibling fields to strings, and merging them over the current context. */
module ConfigContext {
  import opened Wrappers
  import opened JsonValues

  const NoTemplateMessage := "No chat template found in model config"

  /** Assigning a string to `newInput["__proto__"]` runs the prototype
      setter, which ignores anything but an object: the entry is lost. */
  const ProtoKey := "__proto__"

  /** `result.config.processor_config || result.config.tokenizer_config || {}`:
      the first truthy sub-object, else an empty object. Reading through a
      missing or null `result` or `config` throws. */
  function SelectConfig(result: Json): (r: Result<Json, string>)
    ensures r.Failure? <==> result.JNull? || Get(result, "config") in {None, Some(JNull)}
    ensures r.Success? ==>
      var config := Get(result, "config").value;
      var processor := Get(config, "processor_config");
      var tokenizer := Get(config, "tokenizer_config");
      && (Truthy(processor) ==> Some(r.value) == processor)
      && (!Truthy(processor) && Truthy(tokenizer) ==> Some(r.value) == tokenizer)
      && (!Truthy(processor) && !Truthy(tokenizer) ==> r.value == JObj(map[]))
  {
    match Read(Some(result), "config")
    case Failure(e) => Failure(e)
    case Success(config) =>
      match Read(config, "processor_config")
      case Failure(e) => Failure(e)
      case Success(processor) =>
        if Truthy(processor) then Success(processor.value)
        else
          var tokenizer := Get(config.value, "tokenizer_config");
          if Truthy(tokenizer) then Success(tokenizer.value) else Success(JObj(map[]))
  }

  /** The outcome of `const { chat_template, ...rest } = selected` followed by
      the truthiness test on `chat_template`. */
  datatype Split = Split(template: Option<string>, rest: map<string, Json>)

  /** Destructures the selected sub-object: the chat template, present only
      when it is a non-empty string, and every other own property. */
  function SplitTemplate(selected: Json): (r: Split)
    ensures "chat_template" !in r.rest
    ensures forall k :: k != "chat_template" ==> (k in r.rest <==> k in Spread(selected))
    ensures forall k :: k in r.rest ==> r.rest[k] == Spread(selected)[k]
    ensures r.template.Some? <==>
      (exists t :: t != "" && Get(selected, "chat_template") == Some(JString(t)))
    ensures r.template.Some? ==> Get(selected, "chat_template") == Some(JString(r.template.value))
  {
    var chatTemplate := Get(selected, "chat_template");
    var template := if Truthy(chatTemplate) && chatTemplate.value.JString?
      then Some(chatTemplate.value.s) else None;
    Split(template, Spread(selected) - {"chat_template"})
  }

  /** An added-token object: a `__type` marker equal to "AddedToken" and a
      string `content`. */
  predicate IsAddedToken(v: Json)
    ensures IsAddedToken(v) <==>
      && v.JObj? && "__type" in v.fields && "content" in v.fields
      && v.fields["__type"] == JString("AddedToken") && v.fields["content"].JString?
  {
    && Get(v, "__type") == Some(JString("AddedToken"))
    && Get(v, "content").Some?
    && Get(v, "content").value.JString?
  }

  /** What a sibling field contributes to the context: a string as it is,
      an added token by its content, anything else nothing. */
  function ContextValue(v: Json): (r: Option<string>)
    ensures r.Some? <==> v.JString? || IsAddedToken(v)
    ensures v.JString? ==> r == Some(v.s)
    ensures IsAddedToken(v) ==> v.fields["content"] == JString(r.value)
  {
    if v.JString? then Some(v.s)
    else if Truthy(Some(v)) && (v.JObj? || v.JArr?) && IsAddedToken(v) then Some(Get(v, "content").value.s)
    else None
  }

  /** The reduced sibling set, `newInput` in the source. A `__proto__`
      sibling never lands in it (see `ProtoKey`). */
  function Reduced(rest: map<string, Json>): (r: map<string, string>)
    ensures forall k :: k in r <==> k in rest && k != ProtoKey && (rest[k].JString? || IsAddedToken(rest[k]))
    ensures forall k :: k in rest && k != ProtoKey && rest[k].JString? ==> r[k] == rest[k].s
    ensures forall k :: k in rest && k != ProtoKey && IsAddedToken(rest[k]) ==>
      Get(rest[k], "content") == Some(JString(r[k]))
  {
    map k | k in rest && k != ProtoKey && ContextValue(rest[k]).Some? :: ContextValue(rest[k]).value
  }

  /** `newInput[key] = value` on an object with no own `__proto__`: every
      key but `__proto__` is set, and a `__proto__` assignment is ignored. */
  function Assign(target: map<string, string>, key: string, value: string): (r: map<string, string>)
    ensures key != ProtoKey ==> r.Keys == target.Keys + {key} && r[key] == value
    ensures forall k :: k in target && k != key ==> k in r && r[k] == target[k]
    ensures key == ProtoKey ==> r == target
  {
    if key == ProtoKey then target else target[key := value]
  }

  /** The loop of the source over `Object.entries(rest)`, inserting into
      `newInput` one key at a time. */
  method ReduceSiblings(rest: map<string, Json>) returns (newInput: map<string, string>)
    ensures newInput == Reduced(rest)
  {
    newInput := map[];
    var pending := rest.Keys;
    while pending != {}
      invariant pending <= rest.Keys
      invariant forall k :: k in newInput <==> k in rest && k !in pending && k != ProtoKey && ContextValue(rest[k]).Some?
      invariant forall k :: k in newInput ==> newInput[k] == ContextValue(rest[k]).value
      decreases pending
    {
      var key :| key in pending;
      var value := rest[key];
      if value.JString? {
        newInput := Assign(newInput, key, value.s);
      } else if Truthy(Some(value)) && (value.JObj? || value.JArr?) && IsAddedToken(value) {
        newInput := Assign(newInput, key, Get(value, "content").value.s);
      }
      pending := pending - {key};
    }
  }

  /** `{ ...current, ...fetched }`: fetched strings win on every key they name;
      every other key keeps its current value; nothing else is added. */
  function Merge(current: map<string, Json>, fetched: map<string, string>): (r: map<string, Json>)
    ensures r.Keys == current.Keys + fetched.Keys
    ensures forall k :: k in fetched ==> r[k] == JString(fetched[k])
    ensures forall k :: k in current && k !in fetched ==> r[k] == current[k]
  {
    current + map k | k in fetched :: JString(fetched[k])
  }

  /** What a successful load yields: the template text and the reduced
      sibling set. */
  datatype Loaded = Loaded(template: string, siblings: map<string, string>)

  /** Steps one to three of the loader applied to the parsed response body. */
  function LoadTemplate(result: Json): (r: Result<Loaded, string>)
    ensures SelectConfig(result).Failure? ==> r == Failure(SelectConfig(result).error)
    ensures SelectConfig(result).Success? && SplitTemplate(SelectConfig(result).value).template.None?
      ==> r == Failure(NoTemplateMessage)
    ensures SelectConfig(result).Success? && SplitTemplate(SelectConfig(result).value).template.Some? ==>
      var split := SplitTemplate(SelectConfig(result).value);
      r == Success(Loaded(split.template.value, Reduced(split.rest)))
    ensures r.Success? ==> "chat_template" !in r.value.siblings && r.value.template != ""
  {
    match SelectConfig(result)
    case Failure(e) => Failure(e)
    case Success(selected) =>
      var split := SplitTemplate(selected);
      match split.template
      case None => Failure(NoTemplateMessage)
      case Some(t) => Success(Loaded(t, Reduced(split.rest)))
  }

  /** A truthy processor configuration is used even when it has no chat
      template: the load then fails, whatever the tokenizer configuration
      holds. */
  lemma ProcessorConfigShadowsTokenizer(result: Json, config: Json, processor: Json)
    requires Get(result, "config") == Some(config)
    requires Get(config, "processor_config") == Some(processor) && Truthy(Some(processor))
    requires Get(processor, "chat_template") == None
    ensures LoadTemplate(result) == Failure(NoTemplateMessage)
  {
  }

  /** A truthy processor configuration with a non-empty template loads that
      template with its reduced siblings. */
  lemma ProcessorTemplateLoads(result: Json, config: Json, processor: Json, t: string)
    requires Get(result, "config") == Some(config)
    requires Get(config, "processor_config") == Some(processor) && Truthy(Some(processor))
    requires Get(processor, "chat_template") == Some(JString(t)) && t != ""
    ensures LoadTemplate(result) == Success(Loaded(t, Reduced(processor.fields - {"chat_template"})))
  {
  }

  /** The tokenizer configuration supplies the template only when the
      processor configuration is absent or falsy. */
  lemma TokenizerConfigFallback(result: Json, config: Json, tokenizer: Json, t: string)
    requires Get(result, "config") == Some(config) && config != JNull
    requires !Truthy(Get(config, "processor_config"))
    requires Get(config, "tokenizer_config") == Some(tokenizer)
    requires Get(tokenizer, "chat_template") == Some(JString(t)) && t != ""
    ensures LoadTemplate(result).Success? && LoadTemplate(result).value.template == t
    ensures LoadTemplate(result).value.siblings == Reduced(tokenizer.fields - {"chat_template"})
  {
  }

  /** Every fetched key of a successful load names a sibling field of the
      selected sub-object that is a string or an added token, and carries its
      string; every such sibling is fetched. */
  lemma LoadedSiblingsExact(result: Json, selected: Json)
    requires SelectConfig(result) == Success(selected)
    requires LoadTemplate(result).Success?
    ensures var siblings := LoadTemplate(result).value.siblings;
      && selected.JObj?
      && (forall k :: k in siblings <==>
            k != "chat_template" && k != ProtoKey && k in selected.fields
            && (selected.fields[k].JString? || IsAddedToken(selected.fields[k])))
      && (forall k :: k in siblings && selected.fields[k].JString? ==> siblings[k] == selected.fields[k].s)
      && (forall k :: k in siblings && IsAddedToken(selected.fields[k]) ==>
            Get(selected.fields[k], "content") == Some(JString(siblings[k])))
  {
  }
}
