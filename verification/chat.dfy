/** The chat completion converters of common/pkg/api. */
module Chat {
  import opened Common
  import opened Json
  import R = Responses

  // ---------------------------------------------------------------------------------------------
  // Function parameters, tool by tool.

  function ConvertTool(c: Codec, tool: Value): Outcome<Value> {
    if !tool.Obj? then Panic
    else
      var t := tool.fields;
      if Function !in t then Ok(tool)
      else if !t[Function].Obj? then Panic
      else
        var fn := t[Function].fields;
        if Parameters !in fn then Ok(tool)
        else Ok(Obj(t[Function := Obj(EncodeField(c, fn, Parameters, EncodedParameters))]))
  }

  function ConvertEncodedTool(c: Codec, tool: Value): Outcome<Value> {
    if !tool.Obj? then Panic
    else
      var t := tool.fields;
      if Function !in t then Ok(tool)
      else if !t[Function].Obj? then Panic
      else
        var fn := t[Function].fields;
        if EncodedParameters !in fn then Ok(tool)
        else
          var p :- DecodeMap(c, fn[EncodedParameters]);
          Ok(Obj(t[Function := Obj(fn[Parameters := p] - {EncodedParameters})]))
  }

  /** A converter applied to every element, in order; the first failure ends it. */
  function ForEach(f: Value -> Outcome<Value>, vs: seq<Value>): (res: Outcome<seq<Value>>)
    ensures res.Ok? ==> |res.value| == |vs|
  {
    if vs == [] then Ok([])
    else
      var init :- ForEach(f, vs[..|vs| - 1]);
      var last :- f(vs[|vs| - 1]);
      Ok(init + [last])
  }

  /** The loop of the converters that go through a list. */
  method ConvertElements(f: Value -> Outcome<Value>, vs: seq<Value>) returns (res: Outcome<seq<Value>>)
    ensures res == ForEach(f, vs)
  {
    var out := [];
    for i := 0 to |vs|
      invariant ForEach(f, vs[..i]) == Ok(out)
    {
      assert vs[..i + 1][..i] == vs[..i];
      var v := f(vs[i]);
      if v.IsFailure() {
        FailureSpreads(f, vs, i);
        return v.PropagateFailure();
      }
      out := out + [v.value];
    }
    assert vs[..|vs|] == vs;
    return Ok(out);
  }

  lemma {:induction false} FailureSpreads(f: Value -> Outcome<Value>, vs: seq<Value>, i: nat)
    requires i < |vs| && ForEach(f, vs[..i]).Ok? && f(vs[i]).IsFailure()
    ensures ForEach(f, vs) == f(vs[i]).PropagateFailure()
    decreases |vs|
  {
    var init := vs[..|vs| - 1];
    if i < |init| {
      assert init[..i] == vs[..i];
      FailureSpreads(f, init, i);
    }
  }

  function AtList(r: Fields, key: Key, f: Value -> Outcome<Value>): Outcome<Fields> {
    if key !in r then Ok(r)
    else if !r[key].Arr? then Panic
    else
      var vs :- ForEach(f, r[key].elems);
      Ok(r[key := Arr(vs)])
  }

  function ConvertFunctionParameters(c: Codec, r: Fields): Outcome<Fields> {
    AtList(r, Tools, v => ConvertTool(c, v))
  }

  function ConvertEncodedFunctionParameters(c: Codec, r: Fields): Outcome<Fields> {
    AtList(r, Tools, v => ConvertEncodedTool(c, v))
  }

  // ---------------------------------------------------------------------------------------------
  // Top-level fields.

  function ConvertChatTemplateKwargs(c: Codec, r: Fields): Outcome<Fields> {
    if ChatTemplateKwargs !in r then Ok(r)
    else if !r[ChatTemplateKwargs].Obj? then Err
    else Ok(EncodeField(c, r, ChatTemplateKwargs, EncodedChatTemplateKwargs))
  }

  function ConvertEncodedChatTemplateKwargs(c: Codec, r: Fields): Outcome<Fields> {
    if EncodedChatTemplateKwargs !in r then Ok(r)
    else
      var kw :- DecodeMap(c, r[EncodedChatTemplateKwargs]);
      Ok(r[ChatTemplateKwargs := kw] - {EncodedChatTemplateKwargs})
  }

  /** The checks both response format converters make before they look at the schema: None means
      there is nothing to convert. */
  function JsonSchemaOf(r: Fields): Outcome<Option<Fields>> {
    if Key.ResponseFormat !in r then Ok(None)
    else if !r[Key.ResponseFormat].Obj? then Err
    else
      var m := r[Key.ResponseFormat].fields;
      if Type !in m || !m[Type].Str? then Err
      else if m[Type].s == "text" || m[Type].s == "json_object" then Ok(None)
      else if m[Type].s != "json_schema" then Err
      else if JsonSchema !in m || !m[JsonSchema].Obj? then Err
      else Ok(Some(m[JsonSchema].fields))
  }

  function WithJsonSchema(r: Fields, js: Fields): Fields
    requires Key.ResponseFormat in r && r[Key.ResponseFormat].Obj?
  {
    r[Key.ResponseFormat := Obj(r[Key.ResponseFormat].fields[JsonSchema := Obj(js)])]
  }

  function ConvertResponseFormat(c: Codec, r: Fields): Outcome<Fields> {
    var js :- JsonSchemaOf(r);
    if js.None? then Ok(r)
    else if Schema !in js.value || !js.value[Schema].Obj? then Err
    else Ok(WithJsonSchema(r, EncodeField(c, js.value, Schema, EncodedSchema)))
  }

  function ConvertEncodedResponseFormat(c: Codec, r: Fields): Outcome<Fields> {
    var js :- JsonSchemaOf(r);
    if js.None? then Ok(r)
    else if EncodedSchema !in js.value || !js.value[EncodedSchema].Str? then Err
    else
      var s :- DecodeMap(c, js.value[EncodedSchema]);
      Ok(WithJsonSchema(r, js.value[Schema := s] - {EncodedSchema}))
  }

  // ---------------------------------------------------------------------------------------------
  // Message contents.

  const CONTENT_TYPE_TEXT := "text"

  function TextArray(s: string): Value {
    Arr([Obj(map[Type := Str(CONTENT_TYPE_TEXT), Text := Str(s)])])
  }

  function ContentToArray(msg: Value): Outcome<Value> {
    if !msg.Obj? then Panic
    else if Content !in msg.fields then Err
    else if msg.fields[Content].Str? then Ok(Obj(msg.fields[Content := TextArray(msg.fields[Content].s)]))
    else Ok(msg)
  }

  function ContentToString(msg: Value): Outcome<Value> {
    if !msg.Obj? then Panic
    else if Content !in msg.fields then Ok(msg)
    else
      var content := msg.fields[Content];
      if !content.Arr? || content.elems == [] then Ok(msg)
      else if |content.elems| > 1 then Err
      else if !content.elems[0].Obj? then Ok(msg)
      else
        var item := content.elems[0].fields;
        if Type in item && item[Type] == Str(CONTENT_TYPE_TEXT) then
          if Text in item && item[Text].Str? then Ok(Obj(msg.fields[Content := item[Text]])) else Ok(msg)
        else Err
  }

  function ConvertContentStringToArray(r: Fields): Outcome<Fields> {
    AtList(r, Messages, ContentToArray)
  }

  function ConvertContentArrayToString(r: Fields): Outcome<Fields> {
    AtList(r, Messages, ContentToString)
  }

  // ---------------------------------------------------------------------------------------------
  // The chains.

  function ToProto(c: Codec): seq<Converter> {
    [ R.ConvertToolChoice,
      r => ConvertFunctionParameters(c, r),
      r => ConvertChatTemplateKwargs(c, r),
      r => R.ConvertPresence(r, Temperature, IsTemperatureSet),
      r => R.ConvertPresence(r, TopP, IsTopPSet),
      r => ConvertResponseFormat(c, r),
      ConvertContentStringToArray ]
  }

  /** `needStringFormat` puts one more converter in front. */
  function ToOpenAI(c: Codec, needStringFormat: bool): seq<Converter> {
    [ r => if needStringFormat then ConvertContentArrayToString(r) else Ok(r),
      r => ConvertEncodedResponseFormat(c, r),
      r => R.ConvertEncodedPresence(r, TopP, IsTopPSet),
      r => R.ConvertEncodedPresence(r, Temperature, IsTemperatureSet),
      r => ConvertEncodedChatTemplateKwargs(c, r),
      r => ConvertEncodedFunctionParameters(c, r),
      R.ConvertToolChoiceObject ]
  }

  predicate UnreservedTool(tool: Value) {
    tool.Obj? && Function in tool.fields && tool.fields[Function].Obj? ==> EncodedParameters !in tool.fields[Function].fields
  }

  ghost predicate Unreserved(r: Fields) {
    && Key.ToolChoiceObject !in r && EncodedChatTemplateKwargs !in r && IsTemperatureSet !in r && IsTopPSet !in r
    && (Tools in r && r[Tools].Arr? ==> forall i :: 0 <= i < |r[Tools].elems| ==> UnreservedTool(r[Tools].elems[i]))
    && (Key.ResponseFormat in r && r[Key.ResponseFormat].Obj? && JsonSchema in r[Key.ResponseFormat].fields
        && r[Key.ResponseFormat].fields[JsonSchema].Obj?
        ==> EncodedSchema !in r[Key.ResponseFormat].fields[JsonSchema].fields)
  }

  /** Parameters the reverse chain can decode: a map or null. */
  predicate DecodableTool(tool: Value) {
    tool.Obj? && Function in tool.fields && tool.fields[Function].Obj? && Parameters in tool.fields[Function].fields ==>
      tool.fields[Function].fields[Parameters].Obj? || tool.fields[Function].fields[Parameters].Null?
  }

  ghost predicate DecodableParameters(r: Fields) {
    Tools in r && r[Tools].Arr? ==> forall i :: 0 <= i < |r[Tools].elems| ==> DecodableTool(r[Tools].elems[i])
  }

  // ---------------------------------------------------------------------------------------------
  // Round trips.

  lemma ToolBack(c: Codec, tool: Value)
    requires c.Lawful() && UnreservedTool(tool) && ConvertTool(c, tool).Ok?
    ensures ConvertEncodedTool(c, ConvertTool(c, tool).value) == if DecodableTool(tool) then Ok(tool) else Err
  {
    var t := tool.fields;
    if Function in t && Parameters in t[Function].fields {
      var fn := t[Function].fields;
      assert c.decode(c.encode(fn[Parameters])) == Some(fn[Parameters]);
      var e := EncodeField(c, fn, Parameters, EncodedParameters);
      assert e[Parameters := fn[Parameters]] - {EncodedParameters} == fn;
      assert t[Function := Obj(e)][Function := Obj(fn)] == t;
    }
  }

  lemma ForEachSnoc(f: Value -> Outcome<Value>, vs: seq<Value>, v: Value)
    ensures ForEach(f, vs + [v]) == var init :- ForEach(f, vs); var last :- f(v); Ok(init + [last])
  {
    assert (vs + [v])[..|vs|] == vs;
  }

  /** If `g` undoes `f` exactly on the values of `good` and fails otherwise, so it does on lists. */
  lemma {:induction false} ForEachBack(f: Value -> Outcome<Value>, g: Value -> Outcome<Value>, good: Value -> bool, vs: seq<Value>)
    requires ForEach(f, vs).Ok?
    requires forall i :: 0 <= i < |vs| && f(vs[i]).Ok? ==> g(f(vs[i]).value) == if good(vs[i]) then Ok(vs[i]) else Err
    ensures ForEach(g, ForEach(f, vs).value) == if (forall i :: 0 <= i < |vs| ==> good(vs[i])) then Ok(vs) else Err
  {
    if vs != [] {
      var init, last := vs[..|vs| - 1], vs[|vs| - 1];
      assert vs == init + [last];
      ForEachSnoc(f, init, last);
      ForEachBack(f, g, good, init);
      ForEachSnoc(g, ForEach(f, init).value, f(last).value);
      assert forall i :: 0 <= i < |init| ==> init[i] == vs[i];
    }
  }

  lemma ToolsBack(c: Codec, tools: seq<Value>)
    requires c.Lawful() && forall i :: 0 <= i < |tools| ==> UnreservedTool(tools[i])
    requires ForEach(v => ConvertTool(c, v), tools).Ok?
    ensures ForEach(v => ConvertEncodedTool(c, v), ForEach(v => ConvertTool(c, v), tools).value)
         == if forall i :: 0 <= i < |tools| ==> DecodableTool(tools[i]) then Ok(tools) else Err
  {
    forall i | 0 <= i < |tools| && ConvertTool(c, tools[i]).Ok?
      ensures ConvertEncodedTool(c, ConvertTool(c, tools[i]).value) == if DecodableTool(tools[i]) then Ok(tools[i]) else Err
    {
      ToolBack(c, tools[i]);
    }
    ForEachBack(v => ConvertTool(c, v), v => ConvertEncodedTool(c, v), DecodableTool, tools);
  }

  lemma FunctionParametersBack(c: Codec, r: Fields)
    requires c.Lawful() && ConvertFunctionParameters(c, r).Ok?
    requires Tools in r && r[Tools].Arr? ==> forall i :: 0 <= i < |r[Tools].elems| ==> UnreservedTool(r[Tools].elems[i])
    ensures ConvertEncodedFunctionParameters(c, ConvertFunctionParameters(c, r).value)
         == if DecodableParameters(r) then Ok(r) else Err
  {
    if Tools in r {
      ToolsBack(c, r[Tools].elems);
      var p := ConvertFunctionParameters(c, r).value;
      assert p[Tools := r[Tools]] == r;
    }
  }

  lemma KwargsBack(c: Codec, r: Fields)
    requires c.Lawful() && ConvertChatTemplateKwargs(c, r).Ok? && EncodedChatTemplateKwargs !in r
    ensures ConvertEncodedChatTemplateKwargs(c, ConvertChatTemplateKwargs(c, r).value) == Ok(r)
  {
    if ChatTemplateKwargs in r {
      assert c.decode(c.encode(r[ChatTemplateKwargs])) == Some(r[ChatTemplateKwargs]);
      var p := ConvertChatTemplateKwargs(c, r).value;
      assert p[ChatTemplateKwargs := r[ChatTemplateKwargs]] - {EncodedChatTemplateKwargs} == r;
    }
  }

  lemma ResponseFormatBack(c: Codec, r: Fields, w: Fields)
    requires c.Lawful() && ConvertResponseFormat(c, r).Ok? && R.ZeroWire(ConvertResponseFormat(c, r).value, w)
    requires JsonSchemaOf(r).Ok? && JsonSchemaOf(r).value.Some? ==> EncodedSchema !in JsonSchemaOf(r).value.value
    ensures ConvertEncodedResponseFormat(c, w).Ok? && R.ZeroWire(r, ConvertEncodedResponseFormat(c, w).value)
  {
    if Key.ResponseFormat in r {
      var p := ConvertResponseFormat(c, r).value;
      assert w[Key.ResponseFormat] == p[Key.ResponseFormat];
      if JsonSchemaOf(r).value.Some? {
        var m := r[Key.ResponseFormat].fields;
        var js := m[JsonSchema].fields;
        var e := EncodeField(c, js, Schema, EncodedSchema);
        assert c.decode(c.encode(js[Schema])) == Some(js[Schema]);
        assert e[Schema := js[Schema]] - {EncodedSchema} == js;
        assert m[JsonSchema := Obj(e)][JsonSchema := Obj(js)] == m;
        assert JsonSchemaOf(w) == Ok(Some(e));
        assert ConvertEncodedResponseFormat(c, w) == Ok(WithJsonSchema(w, js));
        assert WithJsonSchema(w, js)[Key.ResponseFormat] == r[Key.ResponseFormat];
      }
    }
  }

  /** The forward chain without its last converter, and the reverse chain without its first. */
  function Encode(c: Codec, r: Fields): Outcome<Fields> {
    var x1 :- R.ConvertToolChoice(r);
    var x2 :- ConvertFunctionParameters(c, x1);
    var x3 :- ConvertChatTemplateKwargs(c, x2);
    ConvertResponseFormat(c, R.WithPresences(x3))
  }

  function Decode(c: Codec, w: Fields): Outcome<Fields> {
    var y5 :- ConvertEncodedResponseFormat(c, w);
    var y4 :- R.ConvertEncodedPresence(y5, TopP, IsTopPSet);
    var y3 :- R.ConvertEncodedPresence(y4, Temperature, IsTemperatureSet);
    var y2 :- ConvertEncodedChatTemplateKwargs(c, y3);
    var y1 :- ConvertEncodedFunctionParameters(c, y2);
    R.ConvertToolChoiceObject(y1)
  }

  lemma ToProtoIs(c: Codec, r: Fields)
    ensures Chain(ToProto(c), r) == var x :- Encode(c, r); ConvertContentStringToArray(x)
  {
    Unchain(ToProto(c), r);
  }

  lemma ToOpenAIIs(c: Codec, needStringFormat: bool, w: Fields)
    ensures Chain(ToOpenAI(c, needStringFormat), w)
         == var w' :- (if needStringFormat then ConvertContentArrayToString(w) else Ok(w)); Decode(c, w')
  {
    Unchain(ToOpenAI(c, needStringFormat), w);
  }

  /** The first three converters leave the fields of the others alone. */
  lemma FirstThree(c: Codec, r: Fields)
    requires c.Lawful() && Unreserved(r)
    ensures R.ConvertToolChoice(r).Ok?
    ensures var x1 := R.ConvertToolChoice(r).value;
            var x2 := ConvertFunctionParameters(c, x1);
            x2.Ok? && ConvertChatTemplateKwargs(c, x2.value).Ok? ==>
              var x3 := ConvertChatTemplateKwargs(c, x2.value).value;
              && R.SameAt(r, x3, IsTemperatureSet) && R.SameAt(r, x3, IsTopPSet) && R.SameAt(r, x3, Key.ResponseFormat)
              && ConvertEncodedChatTemplateKwargs(c, x3) == Ok(x2.value)
              && ConvertEncodedFunctionParameters(c, x2.value) == (if DecodableParameters(r) then Ok(x1) else Err)
              && R.ConvertToolChoiceObject(x1) == Ok(r)
  {
    R.ToolChoiceBack(r);
    var x1 := R.ConvertToolChoice(r).value;
    assert R.SameAt(r, x1, Tools);
    if ConvertFunctionParameters(c, x1).Ok? {
      FunctionParametersBack(c, x1);
      var x2 := ConvertFunctionParameters(c, x1).value;
      if ConvertChatTemplateKwargs(c, x2).Ok? {
        KwargsBack(c, x2);
      }
    }
  }

  lemma EncodeBack(c: Codec, r: Fields, w: Fields)
    requires c.Lawful() && Unreserved(r) && Encode(c, r).Ok? && R.ZeroWire(Encode(c, r).value, w)
    ensures Decode(c, w) == if DecodableParameters(r) then Ok(r) else Err
  {
    FirstThree(c, r);
    var x3 := ConvertChatTemplateKwargs(c, ConvertFunctionParameters(c, R.ConvertToolChoice(r).value).value).value;
    assert R.SameAt(x3, R.WithPresences(x3), Key.ResponseFormat);
    ResponseFormatBack(c, R.WithPresences(x3), w);
    R.PresencesBack(x3, ConvertEncodedResponseFormat(c, w).value);
  }

  /** Another value for a field, if the field is there. */
  function With(r: Fields, k: Key, v: Value): Fields {
    if k in r then r[k := v] else r
  }

  /** The fields that the other converters neither read nor write, apart from whether they are there. */
  predicate Passive(k: Key) {
    k == Messages || R.Sampling(k)
  }

  lemma EncodeLeaves(c: Codec, r: Fields, k: Key, v: Value)
    requires Passive(k) && Encode(c, r).Ok?
    ensures R.SameAt(r, Encode(c, r).value, k)
    ensures Encode(c, With(r, k, v)) == Ok(With(Encode(c, r).value, k, v))
  {
    var x1 := R.ConvertToolChoice(r).value;
    var x2 := ConvertFunctionParameters(c, x1).value;
    var x3 := ConvertChatTemplateKwargs(c, x2).value;
    ToolChoiceLeaves(r, k, v);
    ParametersLeave(c, x1, k, v);
    KwargsLeave(c, x2, k, v);
    PresencesLeave(x3, k, v);
    FormatLeaves(c, R.WithPresences(x3), k, v);
  }

  lemma ToolChoiceLeaves(r: Fields, k: Key, v: Value)
    requires Passive(k)
    ensures var r' := R.ConvertToolChoice(r);
            r'.Ok? && R.SameAt(r, r'.value, k)
            && R.ConvertToolChoice(With(r, k, v)) == Ok(With(r'.value, k, v))
  {
    assert R.ConvertToolChoice(With(r, k, v)).value == With(R.ConvertToolChoice(r).value, k, v);
  }

  lemma KwargsLeave(c: Codec, r: Fields, k: Key, v: Value)
    requires Passive(k) && ConvertChatTemplateKwargs(c, r).Ok?
    ensures R.SameAt(r, ConvertChatTemplateKwargs(c, r).value, k)
    ensures ConvertChatTemplateKwargs(c, With(r, k, v)) == Ok(With(ConvertChatTemplateKwargs(c, r).value, k, v))
  {
    assert ConvertChatTemplateKwargs(c, With(r, k, v)).value == With(ConvertChatTemplateKwargs(c, r).value, k, v);
  }

  lemma ParametersLeave(c: Codec, r: Fields, k: Key, v: Value)
    requires Passive(k) && ConvertFunctionParameters(c, r).Ok?
    ensures R.SameAt(r, ConvertFunctionParameters(c, r).value, k)
    ensures ConvertFunctionParameters(c, With(r, k, v)) == Ok(With(ConvertFunctionParameters(c, r).value, k, v))
  {
    if Tools in r {
      var tools := ConvertFunctionParameters(c, r).value[Tools];
      assert With(r, k, v)[Tools := tools] == With(r[Tools := tools], k, v);
    }
  }

  lemma PresenceLeaves(r: Fields, key: Key, setKey: Key, k: Key, v: Value)
    requires Passive(k) && !Passive(setKey)
    ensures var r' := R.ConvertPresence(r, key, setKey);
            r'.Ok? && R.SameAt(r, r'.value, k)
            && R.ConvertPresence(With(r, k, v), key, setKey) == Ok(With(r'.value, k, v))
  {
    assert key in With(r, k, v) <==> key in r;
    if key in r {
      assert With(r, k, v)[setKey := Bool(true)] == With(r[setKey := Bool(true)], k, v);
    }
  }

  lemma PresencesLeave(r: Fields, k: Key, v: Value)
    requires Passive(k)
    ensures R.SameAt(r, R.WithPresences(r), k)
    ensures R.WithPresences(With(r, k, v)) == With(R.WithPresences(r), k, v)
  {
    PresenceLeaves(r, Temperature, IsTemperatureSet, k, v);
    PresenceLeaves(R.ConvertPresence(r, Temperature, IsTemperatureSet).value, TopP, IsTopPSet, k, v);
  }

  lemma FormatLeaves(c: Codec, r: Fields, k: Key, v: Value)
    requires Passive(k) && ConvertResponseFormat(c, r).Ok?
    ensures R.SameAt(r, ConvertResponseFormat(c, r).value, k)
    ensures ConvertResponseFormat(c, With(r, k, v)) == Ok(With(ConvertResponseFormat(c, r).value, k, v))
  {
    assert R.SameAt(r, With(r, k, v), Key.ResponseFormat);
    assert JsonSchemaOf(With(r, k, v)) == JsonSchemaOf(r);
    if JsonSchemaOf(r).value.Some? {
      var f := ConvertResponseFormat(c, r).value[Key.ResponseFormat];
      assert With(r, k, v)[Key.ResponseFormat := f] == With(r[Key.ResponseFormat := f], k, v);
    }
  }

  /** The request with every string content as a one-element text array. */
  function Normalized(r: Fields): Fields
    requires ConvertContentStringToArray(r).Ok?
  {
    ConvertContentStringToArray(r).value
  }

  ghost predicate StringContents(r: Fields) {
    Messages in r && r[Messages].Arr? ==>
      forall i :: 0 <= i < |r[Messages].elems| ==> HasStringContent(r[Messages].elems[i])
  }

  predicate HasStringContent(msg: Value) {
    msg.Obj? && Content in msg.fields && msg.fields[Content].Str?
  }

  lemma {:induction false} ContentsBack(msgs: seq<Value>)
    requires forall i :: 0 <= i < |msgs| ==> HasStringContent(msgs[i])
    ensures ForEach(ContentToArray, msgs).Ok?
    ensures ForEach(ContentToString, ForEach(ContentToArray, msgs).value) == Ok(msgs)
  {
    if msgs != [] {
      var init, last := msgs[..|msgs| - 1], msgs[|msgs| - 1];
      ContentsBack(init);
      ContentBack(last);
      assert msgs == init + [last];
      ForEachSnoc(ContentToArray, init, last);
      ForEachSnoc(ContentToString, ForEach(ContentToArray, init).value, ContentToArray(last).value);
    }
  }

  lemma ContentBack(msg: Value)
    requires HasStringContent(msg)
    ensures ContentToArray(msg).Ok? && ContentToString(ContentToArray(msg).value) == Ok(msg)
  {
    var m := msg.fields;
    assert m[Content := TextArray(m[Content].s)][Content := m[Content]] == m;
  }

  /** For a wire without nulls. */
  lemma ZeroRoundTrip(c: Codec, r: Fields, w: Fields)
    requires c.Lawful() && Unreserved(r) && Chain(ToProto(c), r).Ok? && R.ZeroWire(Chain(ToProto(c), r).value, w)
    ensures ConvertContentStringToArray(r).Ok?
    ensures Chain(ToOpenAI(c, false), w) == if DecodableParameters(r) then Ok(Normalized(r)) else Err
    ensures StringContents(r) ==> Chain(ToOpenAI(c, true), w) == if DecodableParameters(r) then Ok(r) else Err
  {
    ToProtoIs(c, r);
    ToOpenAIIs(c, false, w);
    ToOpenAIIs(c, true, w);
    var x := Encode(c, r).value;
    var p := ConvertContentStringToArray(x).value;
    var msgs := if Messages in x then p[Messages] else Null;
    EncodeLeaves(c, r, Messages, msgs);
    assert Normalized(r) == With(r, Messages, msgs);
    assert p == With(x, Messages, msgs);
    EncodeBack(c, With(r, Messages, msgs), w);
    if StringContents(r) {
      StringsBack(c, r, w);
    }
  }

  /** The round trip of a chat completion request that the forward chain accepts and that leaves the
      reserved names alone, whatever the wire drops. The reverse chain fails exactly when function
      parameters are neither maps nor null; otherwise it returns the request with its string contents as
      arrays, and a null temperature or top_p as zero. Asked for the string format, and given only string
      contents, it returns the request itself if and only if moreover neither of the two is null. */
  lemma RoundTrip(c: Codec, r: Fields, w: Fields)
    requires c.Lawful() && Unreserved(r) && Chain(ToProto(c), r).Ok? && R.Wire(Chain(ToProto(c), r).value, w)
    ensures ConvertContentStringToArray(r).Ok?
    ensures Chain(ToOpenAI(c, false), w) == if DecodableParameters(r) then Ok(R.Zeroed(Normalized(r))) else Err
    ensures Chain(ToOpenAI(c, false), w) == Ok(Normalized(r)) <==> DecodableParameters(r) && R.NoNull(r)
    ensures StringContents(r) ==>
      && Chain(ToOpenAI(c, true), w) == (if DecodableParameters(r) then Ok(R.Zeroed(r)) else Err)
      && (Chain(ToOpenAI(c, true), w) == Ok(r) <==> DecodableParameters(r) && R.NoNull(r))
  {
    AcceptsContents(c, r);
    ForwardZeroed(c, r);
    R.WireIsZeroWire(Chain(ToProto(c), r).value, w);
    SameConditions(r);
    ZeroRoundTrip(c, R.Zeroed(r), w);
    NormalizedZeroed(r);
    R.ZeroedIff(r);
    R.ZeroedIff(Normalized(r));
  }

  lemma AcceptsContents(c: Codec, r: Fields)
    requires Chain(ToProto(c), r).Ok?
    ensures ConvertContentStringToArray(r).Ok?
  {
    ToProtoIs(c, r);
    EncodeLeaves(c, r, Messages, Null);
  }

  /** Zeros in the place of nulls change none of the conditions. */
  lemma SameConditions(r: Fields)
    ensures Unreserved(R.Zeroed(r)) <==> Unreserved(r)
    ensures DecodableParameters(R.Zeroed(r)) <==> DecodableParameters(r)
    ensures StringContents(R.Zeroed(r)) <==> StringContents(r)
  {
  }

  lemma NormalizedZeroed(r: Fields)
    requires ConvertContentStringToArray(r).Ok?
    ensures ConvertContentStringToArray(R.Zeroed(r)) == Ok(R.Zeroed(Normalized(r)))
    ensures R.NoNull(Normalized(r)) <==> R.NoNull(r)
  {
    ContentsIgnore(r, Temperature);
    ContentsIgnore(R.ZeroedAt(r, Temperature), TopP);
  }

  /** The forward chain looks at whether temperature and top_p are there, not at what they are. */
  lemma ForwardZeroed(c: Codec, r: Fields)
    requires Chain(ToProto(c), r).Ok?
    ensures Chain(ToProto(c), R.Zeroed(r)) == Ok(R.Zeroed(Chain(ToProto(c), r).value))
  {
    ForwardIgnores(c, r, Temperature);
    ForwardIgnores(c, R.ZeroedAt(r, Temperature), TopP);
  }

  lemma ForwardIgnores(c: Codec, r: Fields, k: Key)
    requires R.Sampling(k) && Chain(ToProto(c), r).Ok?
    ensures Chain(ToProto(c), R.ZeroedAt(r, k)) == Ok(R.ZeroedAt(Chain(ToProto(c), r).value, k))
  {
    ToProtoIs(c, r);
    ToProtoIs(c, R.ZeroedAt(r, k));
    EncodeLeaves(c, r, k, Num(Zero));
    ContentsIgnore(Encode(c, r).value, k);
  }

  lemma ContentsIgnore(r: Fields, k: Key)
    requires R.Sampling(k) && ConvertContentStringToArray(r).Ok?
    ensures R.SameAt(r, ConvertContentStringToArray(r).value, k)
    ensures ConvertContentStringToArray(R.ZeroedAt(r, k)) == Ok(R.ZeroedAt(ConvertContentStringToArray(r).value, k))
  {
    if Messages in r {
      var msgs := ConvertContentStringToArray(r).value[Messages];
      assert R.ZeroedAt(r, k)[Messages := msgs] == R.ZeroedAt(r[Messages := msgs], k);
    }
  }

  lemma StringsBack(c: Codec, r: Fields, w: Fields)
    requires c.Lawful() && Unreserved(r) && StringContents(r) && Encode(c, r).Ok?
    requires ConvertContentStringToArray(Encode(c, r).value).Ok?
    requires R.ZeroWire(ConvertContentStringToArray(Encode(c, r).value).value, w)
    ensures ConvertContentArrayToString(w).Ok?
    ensures Decode(c, ConvertContentArrayToString(w).value) == if DecodableParameters(r) then Ok(r) else Err
  {
    var x := Encode(c, r).value;
    EncodeLeaves(c, r, Messages, Null);
    if Messages in r {
      ContentsBack(r[Messages].elems);
      assert w[Messages] == ConvertContentStringToArray(x).value[Messages];
      assert ConvertContentArrayToString(w) == Ok(w[Messages := x[Messages]]);
    }
    var w' := ConvertContentArrayToString(w).value;
    assert R.ZeroWire(x, w');
    EncodeBack(c, r, w');
  }
}
