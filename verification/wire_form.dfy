/**
 What the request converters of common/pkg/api are for: after them nothing is left of a request that a protocol
 message has no field for, and everything they replaced can be read back from what they put there. Stated for
 each field by what is there before and after, without the converters.
 */
module WireForm {
  import opened Common
  import opened Json
  import R = Responses
  import C = Chat

  // ---------------------------------------------------------------------------------------------
  // Fields before and after.

  ghost predicate Untouched(r: Fields, p: Fields, keys: set<Key>) {
    forall k :: k !in keys ==> Lookup(p, k) == Lookup(r, k)
  }

  /** If it applies, the plain field is gone and the encoded one decodes to exactly what it was. */
  ghost predicate EncodedAs(c: Codec, r: Fields, p: Fields, plain: Key, encoded: Key, applies: bool) {
    if applies then
      && plain in r && plain !in p && encoded in p && p[encoded].Str?
      && c.decode(p[encoded].s) == Some(r[plain])
    else Lookup(p, plain) == Lookup(r, plain) && Lookup(p, encoded) == Lookup(r, encoded)
  }

  /** A map with one field that may be encoded, and nothing else changed. */
  ghost predicate OnlyEncoded(c: Codec, r: Fields, p: Fields, plain: Key, encoded: Key, applies: bool) {
    EncodedAs(c, r, p, plain, encoded, applies) && Untouched(r, p, {plain, encoded})
  }

  lemma EncodeFieldIs(c: Codec, r: Fields, plain: Key, encoded: Key)
    requires c.Lawful() && plain in r && plain != encoded
    ensures OnlyEncoded(c, r, EncodeField(c, r, plain, encoded), plain, encoded, true)
  {
    assert c.decode(c.encode(r[plain])) == Some(r[plain]);
  }

  ghost predicate SameAt(r: Fields, p: Fields, k: Key) {
    Lookup(p, k) == Lookup(r, k)
  }

  lemma UntouchedAt(r: Fields, p: Fields, keys: set<Key>, k: Key)
    requires Untouched(r, p, keys)
    ensures k !in keys ==> SameAt(r, p, k)
  {
  }

  lemma EncodedElsewhere(c: Codec, r: Fields, x: Fields, y: Fields, p: Fields, plain: Key, encoded: Key, applies: bool)
    requires EncodedAs(c, x, y, plain, encoded, applies)
    requires SameAt(r, x, plain) && SameAt(r, x, encoded) && SameAt(y, p, plain) && SameAt(y, p, encoded)
    ensures EncodedAs(c, r, p, plain, encoded, applies)
  {
  }

  lemma FlaggedElsewhere(r: Fields, x: Fields, y: Fields, p: Fields, key: Key, setKey: Key)
    requires Flagged(x, y, key, setKey)
    requires SameAt(r, x, key) && SameAt(r, x, setKey) && SameAt(y, p, key) && SameAt(y, p, setKey)
    ensures Flagged(r, p, key, setKey)
  {
  }

  /** A field that is a map, and still is, with everything in it but the keys given as it was. */
  ghost predicate StillMap(v: Value, v': Value, keys: set<Key>) {
    v.Obj? && v'.Obj? && Untouched(v.fields, v'.fields, keys)
  }

  predicate MapAt(r: Fields, k: Key) {
    k in r && r[k].Obj?
  }

  /** The flag is set if the field is there. */
  predicate Flagged(r: Fields, p: Fields, key: Key, setKey: Key) {
    && Lookup(p, key) == Lookup(r, key)
    && Lookup(p, setKey) == if key in r then Some(Bool(true)) else Lookup(r, setKey)
  }

  /** A tool choice that is not text, with what is to be put into its place. */
  predicate Renamed(r: Fields, p: Fields, choice: Option<Value>) {
    if ToolChoice in r && !r[ToolChoice].Str? then ToolChoice !in p && Lookup(p, Key.ToolChoiceObject) == choice
    else Lookup(p, ToolChoice) == Lookup(r, ToolChoice) && Lookup(p, Key.ToolChoiceObject) == Lookup(r, Key.ToolChoiceObject)
  }

  // ---------------------------------------------------------------------------------------------
  // Chat completions.

  /** A tool whose function may have parameters. */
  ghost predicate ToolCarried(c: Codec, v: Value, v': Value) {
    if v.Obj? && MapAt(v.fields, Function) then
      && StillMap(v, v', {Function}) && MapAt(v'.fields, Function)
      && var fn, fn' := v.fields[Function].fields, v'.fields[Function].fields;
         OnlyEncoded(c, fn, fn', Parameters, EncodedParameters, Parameters in fn)
    else v' == v
  }

  predicate SchemaFormat(v: Value) {
    && v.Obj? && Lookup(v.fields, Type) == Some(Str("json_schema")) && MapAt(v.fields, JsonSchema)
    && MapAt(v.fields[JsonSchema].fields, Schema)
  }

  ghost predicate FormatCarried(c: Codec, v: Value, v': Value) {
    if SchemaFormat(v) then
      && StillMap(v, v', {JsonSchema}) && MapAt(v'.fields, JsonSchema)
      && OnlyEncoded(c, v.fields[JsonSchema].fields, v'.fields[JsonSchema].fields, Schema, EncodedSchema, true)
    else v' == v
  }

  /** Text as contents becomes a list of one text part; contents that are no text stay. */
  ghost predicate MessageCarried(v: Value, v': Value) {
    if v.Obj? && Content in v.fields && v.fields[Content].Str? then
      && StillMap(v, v', {Content})
      && Lookup(v'.fields, Content) == Some(Arr([Obj(map[Type := Str("text"), Text := v.fields[Content]])]))
    else v' == v
  }

  ghost predicate ToolsCarried(c: Codec, v: Option<Value>, v': Option<Value>) {
    if v.None? then v'.None?
    else
      && v.value.Arr? && v'.Some? && v'.value.Arr? && |v'.value.elems| == |v.value.elems|
      && forall i :: 0 <= i < |v.value.elems| ==> ToolCarried(c, v.value.elems[i], v'.value.elems[i])
  }

  ghost predicate MessagesCarried(v: Option<Value>, v': Option<Value>) {
    if v.None? then v'.None?
    else
      && v.value.Arr? && v'.Some? && v'.value.Arr? && |v'.value.elems| == |v.value.elems|
      && forall i :: 0 <= i < |v.value.elems| ==> MessageCarried(v.value.elems[i], v'.value.elems[i])
  }

  ghost predicate FormatFieldCarried(c: Codec, v: Option<Value>, v': Option<Value>) {
    if v.None? then v'.None? else v'.Some? && FormatCarried(c, v.value, v'.value)
  }

  const CHAT_KEYS := {ToolChoice, Key.ToolChoiceObject, Tools, ChatTemplateKwargs, EncodedChatTemplateKwargs,
                      IsTemperatureSet, IsTopPSet, Key.ResponseFormat, Messages}

  /** A chat completion request and the body that goes to its message. */
  ghost predicate ChatCarried(c: Codec, r: Fields, p: Fields) {
    && Renamed(r, p, Lookup(r, ToolChoice))
    && ToolsCarried(c, Lookup(r, Tools), Lookup(p, Tools))
    && EncodedAs(c, r, p, ChatTemplateKwargs, EncodedChatTemplateKwargs, ChatTemplateKwargs in r)
    && Flagged(r, p, Temperature, IsTemperatureSet) && Flagged(r, p, TopP, IsTopPSet)
    && FormatFieldCarried(c, Lookup(r, Key.ResponseFormat), Lookup(p, Key.ResponseFormat))
    && MessagesCarried(Lookup(r, Messages), Lookup(p, Messages))
    && Untouched(r, p, CHAT_KEYS)
  }

  predicate ToolAccepted(v: Value) {
    v.Obj? && (Function in v.fields ==> v.fields[Function].Obj?)
  }

  predicate FormatAccepted(v: Value) {
    SchemaFormat(v) || (v.Obj? && Lookup(v.fields, Type) in {Some(Str("text")), Some(Str("json_object"))})
  }

  predicate MessageAccepted(v: Value) {
    v.Obj? && Content in v.fields
  }

  ghost predicate ToolsAccepted(v: Option<Value>) {
    v.Some? ==> v.value.Arr? && forall i :: 0 <= i < |v.value.elems| ==> ToolAccepted(v.value.elems[i])
  }

  ghost predicate MessagesAccepted(v: Option<Value>) {
    v.Some? ==> v.value.Arr? && forall i :: 0 <= i < |v.value.elems| ==> MessageAccepted(v.value.elems[i])
  }

  /** What a request must look like, field by field. */
  ghost predicate ChatAccepted(r: Fields) {
    && ToolsAccepted(Lookup(r, Tools))
    && (ChatTemplateKwargs in r ==> r[ChatTemplateKwargs].Obj?)
    && (Key.ResponseFormat in r ==> FormatAccepted(r[Key.ResponseFormat]))
    && MessagesAccepted(Lookup(r, Messages))
  }

  // Each converter.

  lemma ToolChoiceStep(r: Fields)
    ensures R.ConvertToolChoice(r).Ok?
    ensures var p := R.ConvertToolChoice(r).value;
            Renamed(r, p, Lookup(r, ToolChoice)) && Untouched(r, p, {ToolChoice, Key.ToolChoiceObject})
  {
  }

  lemma ToolStep(c: Codec, v: Value)
    requires c.Lawful()
    ensures C.ConvertTool(c, v).Ok? <==> ToolAccepted(v)
    ensures C.ConvertTool(c, v).Ok? ==> ToolCarried(c, v, C.ConvertTool(c, v).value)
  {
    if ToolAccepted(v) && Function in v.fields && Parameters in v.fields[Function].fields {
      EncodeFieldIs(c, v.fields[Function].fields, Parameters, EncodedParameters);
    }
  }

  lemma MessageStep(v: Value)
    ensures C.ContentToArray(v).Ok? <==> MessageAccepted(v)
    ensures C.ContentToArray(v).Ok? ==> MessageCarried(v, C.ContentToArray(v).value)
  {
  }

  /** A converter goes through a list if and only if it can take every element, and converts each where it is. */
  lemma {:induction false} ForEachIs(f: Value -> Outcome<Value>, vs: seq<Value>)
    ensures C.ForEach(f, vs).Ok? <==> forall i :: 0 <= i < |vs| ==> f(vs[i]).Ok?
    ensures C.ForEach(f, vs).Ok? ==> forall i :: 0 <= i < |vs| ==> C.ForEach(f, vs).value[i] == f(vs[i]).value
  {
    if vs != [] {
      var init, last := vs[..|vs| - 1], vs[|vs| - 1];
      ForEachIs(f, init);
      assert vs == init + [last];
      C.ForEachSnoc(f, init, last);
      assert forall i :: 0 <= i < |init| ==> init[i] == vs[i];
    }
  }

  lemma ToolsStep(c: Codec, r: Fields)
    requires c.Lawful()
    ensures C.ConvertFunctionParameters(c, r).Ok? <==> ToolsAccepted(Lookup(r, Tools))
    ensures C.ConvertFunctionParameters(c, r).Ok? ==>
              var p := C.ConvertFunctionParameters(c, r).value; ToolsCarried(c, Lookup(r, Tools), Lookup(p, Tools)) && Untouched(r, p, {Tools})
  {
    if Tools in r && r[Tools].Arr? {
      var vs := r[Tools].elems;
      ForEachIs(v => C.ConvertTool(c, v), vs);
      forall i | 0 <= i < |vs|
        ensures C.ConvertTool(c, vs[i]).Ok? <==> ToolAccepted(vs[i])
        ensures C.ConvertTool(c, vs[i]).Ok? ==> ToolCarried(c, vs[i], C.ConvertTool(c, vs[i]).value)
      {
        ToolStep(c, vs[i]);
      }
    }
  }

  lemma MessagesStep(r: Fields)
    ensures C.ConvertContentStringToArray(r).Ok? <==> MessagesAccepted(Lookup(r, Messages))
    ensures C.ConvertContentStringToArray(r).Ok? ==>
              var p := C.ConvertContentStringToArray(r).value; MessagesCarried(Lookup(r, Messages), Lookup(p, Messages)) && Untouched(r, p, {Messages})
  {
    if Messages in r && r[Messages].Arr? {
      var vs := r[Messages].elems;
      ForEachIs(C.ContentToArray, vs);
      forall i | 0 <= i < |vs|
        ensures C.ContentToArray(vs[i]).Ok? <==> MessageAccepted(vs[i])
        ensures C.ContentToArray(vs[i]).Ok? ==> MessageCarried(vs[i], C.ContentToArray(vs[i]).value)
      {
        MessageStep(vs[i]);
      }
    }
  }

  lemma KwargsStep(c: Codec, r: Fields)
    requires c.Lawful()
    ensures C.ConvertChatTemplateKwargs(c, r).Ok? <==> (ChatTemplateKwargs in r ==> r[ChatTemplateKwargs].Obj?)
    ensures C.ConvertChatTemplateKwargs(c, r).Ok? ==>
              OnlyEncoded(c, r, C.ConvertChatTemplateKwargs(c, r).value, ChatTemplateKwargs, EncodedChatTemplateKwargs, ChatTemplateKwargs in r)
  {
    if ChatTemplateKwargs in r {
      EncodeFieldIs(c, r, ChatTemplateKwargs, EncodedChatTemplateKwargs);
    }
  }

  lemma PresencesStep(r: Fields)
    ensures var p := R.WithPresences(r);
            && Flagged(r, p, Temperature, IsTemperatureSet) && Flagged(r, p, TopP, IsTopPSet)
            && Untouched(r, p, {IsTemperatureSet, IsTopPSet})
  {
  }

  lemma FormatStep(c: Codec, r: Fields)
    requires c.Lawful()
    ensures C.ConvertResponseFormat(c, r).Ok? <==> (Key.ResponseFormat in r ==> FormatAccepted(r[Key.ResponseFormat]))
    ensures C.ConvertResponseFormat(c, r).Ok? ==>
              var p := C.ConvertResponseFormat(c, r).value; FormatFieldCarried(c, Lookup(r, Key.ResponseFormat), Lookup(p, Key.ResponseFormat)) && Untouched(r, p, {Key.ResponseFormat})
  {
    if Key.ResponseFormat in r && SchemaFormat(r[Key.ResponseFormat]) {
      EncodeFieldIs(c, r[Key.ResponseFormat].fields[JsonSchema].fields, Schema, EncodedSchema);
    }
  }

  // The chain.

  /** The states of a request between the converters that change its fields. */
  ghost predicate ChatSteps(c: Codec, r: Fields, x1: Fields, x2: Fields, x3: Fields, x5: Fields, x6: Fields, p: Fields) {
    && Renamed(r, x1, Lookup(r, ToolChoice)) && Untouched(r, x1, {ToolChoice, Key.ToolChoiceObject})
    && ToolsCarried(c, Lookup(x1, Tools), Lookup(x2, Tools)) && Untouched(x1, x2, {Tools})
    && OnlyEncoded(c, x2, x3, ChatTemplateKwargs, EncodedChatTemplateKwargs, ChatTemplateKwargs in x2)
    && Flagged(x3, x5, Temperature, IsTemperatureSet) && Flagged(x3, x5, TopP, IsTopPSet)
    && Untouched(x3, x5, {IsTemperatureSet, IsTopPSet})
    && FormatFieldCarried(c, Lookup(x5, Key.ResponseFormat), Lookup(x6, Key.ResponseFormat)) && Untouched(x5, x6, {Key.ResponseFormat})
    && MessagesCarried(Lookup(x6, Messages), Lookup(p, Messages)) && Untouched(x6, p, {Messages})
  }

  /** How one key goes through the steps. */
  lemma ChatPath(r: Fields, x1: Fields, x2: Fields, x3: Fields, x5: Fields, x6: Fields, p: Fields, k: Key)
    requires Untouched(r, x1, {ToolChoice, Key.ToolChoiceObject}) && Untouched(x1, x2, {Tools})
    requires Untouched(x2, x3, {ChatTemplateKwargs, EncodedChatTemplateKwargs}) && Untouched(x3, x5, {IsTemperatureSet, IsTopPSet})
    requires Untouched(x5, x6, {Key.ResponseFormat}) && Untouched(x6, p, {Messages})
    ensures k !in {ToolChoice, Key.ToolChoiceObject} ==> SameAt(r, x1, k)
    ensures k != Tools ==> SameAt(x1, x2, k)
    ensures k !in {ChatTemplateKwargs, EncodedChatTemplateKwargs} ==> SameAt(x2, x3, k)
    ensures k !in {IsTemperatureSet, IsTopPSet} ==> SameAt(x3, x5, k)
    ensures k != Key.ResponseFormat ==> SameAt(x5, x6, k)
    ensures k != Messages ==> SameAt(x6, p, k)
  {
    UntouchedAt(r, x1, {ToolChoice, Key.ToolChoiceObject}, k);
    UntouchedAt(x1, x2, {Tools}, k);
    UntouchedAt(x2, x3, {ChatTemplateKwargs, EncodedChatTemplateKwargs}, k);
    UntouchedAt(x3, x5, {IsTemperatureSet, IsTopPSet}, k);
    UntouchedAt(x5, x6, {Key.ResponseFormat}, k);
    UntouchedAt(x6, p, {Messages}, k);
  }

  lemma ToolsAndChoice(c: Codec, r: Fields, x1: Fields, x2: Fields, x3: Fields, x5: Fields, x6: Fields, p: Fields)
    requires ChatSteps(c, r, x1, x2, x3, x5, x6, p)
    ensures Renamed(r, p, Lookup(r, ToolChoice)) && ToolsCarried(c, Lookup(r, Tools), Lookup(p, Tools))
  {
    ChatPath(r, x1, x2, x3, x5, x6, p, ToolChoice);
    ChatPath(r, x1, x2, x3, x5, x6, p, Key.ToolChoiceObject);
    ChatPath(r, x1, x2, x3, x5, x6, p, Tools);
  }

  lemma KwargsAndFlags(c: Codec, r: Fields, x1: Fields, x2: Fields, x3: Fields, x5: Fields, x6: Fields, p: Fields)
    requires ChatSteps(c, r, x1, x2, x3, x5, x6, p)
    ensures EncodedAs(c, r, p, ChatTemplateKwargs, EncodedChatTemplateKwargs, ChatTemplateKwargs in r)
    ensures Flagged(r, p, Temperature, IsTemperatureSet) && Flagged(r, p, TopP, IsTopPSet)
  {
    ChatPath(r, x1, x2, x3, x5, x6, p, ChatTemplateKwargs);
    ChatPath(r, x1, x2, x3, x5, x6, p, EncodedChatTemplateKwargs);
    ChatPath(r, x1, x2, x3, x5, x6, p, Temperature);
    ChatPath(r, x1, x2, x3, x5, x6, p, IsTemperatureSet);
    ChatPath(r, x1, x2, x3, x5, x6, p, TopP);
    ChatPath(r, x1, x2, x3, x5, x6, p, IsTopPSet);
    EncodedElsewhere(c, r, x2, x3, p, ChatTemplateKwargs, EncodedChatTemplateKwargs, ChatTemplateKwargs in r);
    FlaggedElsewhere(r, x3, x5, p, Temperature, IsTemperatureSet);
    FlaggedElsewhere(r, x3, x5, p, TopP, IsTopPSet);
  }

  lemma FormatAndMessages(c: Codec, r: Fields, x1: Fields, x2: Fields, x3: Fields, x5: Fields, x6: Fields, p: Fields)
    requires ChatSteps(c, r, x1, x2, x3, x5, x6, p)
    ensures FormatFieldCarried(c, Lookup(r, Key.ResponseFormat), Lookup(p, Key.ResponseFormat))
    ensures MessagesCarried(Lookup(r, Messages), Lookup(p, Messages))
  {
    ChatPath(r, x1, x2, x3, x5, x6, p, Key.ResponseFormat);
    ChatPath(r, x1, x2, x3, x5, x6, p, Messages);
  }

  lemma ChatTogether(c: Codec, r: Fields, x1: Fields, x2: Fields, x3: Fields, x5: Fields, x6: Fields, p: Fields)
    requires ChatSteps(c, r, x1, x2, x3, x5, x6, p)
    ensures ChatCarried(c, r, p)
  {
    ToolsAndChoice(c, r, x1, x2, x3, x5, x6, p);
    KwargsAndFlags(c, r, x1, x2, x3, x5, x6, p);
    FormatAndMessages(c, r, x1, x2, x3, x5, x6, p);
    forall k | k !in CHAT_KEYS ensures Lookup(p, k) == Lookup(r, k) {
      ChatPath(r, x1, x2, x3, x5, x6, p, k);
    }
  }

  /** The first three converters that can fail. */
  lemma EncodeIs(c: Codec, r: Fields)
    requires c.Lawful()
    ensures C.Encode(c, r).Ok? <==>
              && ToolsAccepted(Lookup(r, Tools)) && (ChatTemplateKwargs in r ==> r[ChatTemplateKwargs].Obj?)
              && (Key.ResponseFormat in r ==> FormatAccepted(r[Key.ResponseFormat]))
    ensures C.Encode(c, r).Ok? ==> SameAt(r, C.Encode(c, r).value, Messages)
  {
    ToolChoiceStep(r);
    var x1 := R.ConvertToolChoice(r).value;
    assert SameAt(r, x1, Tools) && SameAt(r, x1, ChatTemplateKwargs) && SameAt(r, x1, Key.ResponseFormat) && SameAt(r, x1, Messages);
    ToolsStep(c, x1);
    if C.ConvertFunctionParameters(c, x1).Ok? {
      var x2 := C.ConvertFunctionParameters(c, x1).value;
      assert SameAt(x1, x2, ChatTemplateKwargs) && SameAt(x1, x2, Key.ResponseFormat) && SameAt(x1, x2, Messages);
      KwargsStep(c, x2);
      if C.ConvertChatTemplateKwargs(c, x2).Ok? {
        var x3 := C.ConvertChatTemplateKwargs(c, x2).value;
        assert SameAt(x2, x3, Key.ResponseFormat) && SameAt(x2, x3, Messages);
        PresencesStep(x3);
        var x5 := R.WithPresences(x3);
        assert SameAt(x3, x5, Key.ResponseFormat) && SameAt(x3, x5, Messages);
        FormatStep(c, x5);
        if C.ConvertResponseFormat(c, x5).Ok? {
          assert SameAt(x5, C.ConvertResponseFormat(c, x5).value, Messages);
        }
      }
    }
  }

  /** The forward chain accepts a request if and only if its tools are maps with maps as functions, its template
      arguments are a map, its response format is of a known type, with a schema where that is demanded, and its
      messages have contents. Without any of these fields it accepts it, too. */
  lemma ChatAcceptedIff(c: Codec, r: Fields)
    requires c.Lawful()
    ensures Chain(C.ToProto(c), r).Ok? <==> ChatAccepted(r)
  {
    C.ToProtoIs(c, r);
    EncodeIs(c, r);
    if C.Encode(c, r).Ok? {
      MessagesStep(C.Encode(c, r).value);
    }
  }

  /** Of every request that the forward chain accepts: template arguments, function parameters, the schema of the
      response format and a tool choice that is not text are gone from where they were, and each can be read
      back from what took its place; the two sampling fields are flagged, text contents are lists, and nothing
      else has changed. */
  lemma ChatIsCarried(c: Codec, r: Fields)
    requires c.Lawful() && Chain(C.ToProto(c), r).Ok?
    ensures ChatCarried(c, r, Chain(C.ToProto(c), r).value)
  {
    C.ToProtoIs(c, r);
    var x1 := R.ConvertToolChoice(r).value;
    var x2 := C.ConvertFunctionParameters(c, x1).value;
    var x3 := C.ConvertChatTemplateKwargs(c, x2).value;
    var x5 := R.WithPresences(x3);
    var x6 := C.ConvertResponseFormat(c, x5).value;
    var p := C.ConvertContentStringToArray(x6).value;
    ToolChoiceStep(r);
    ToolsStep(c, x1);
    KwargsStep(c, x2);
    PresencesStep(x3);
    FormatStep(c, x5);
    MessagesStep(x6);
    ChatTogether(c, r, x1, x2, x3, x5, x6, p);
  }

  // ---------------------------------------------------------------------------------------------
  // The string format for messages.

  predicate TextPart(v: Value) {
    v.Obj? && Lookup(v.fields, Type) == Some(Str("text"))
  }

  /** The contents cannot be written as one text: there are several parts, or one that is a map but not text. */
  predicate NoSingleText(content: Value) {
    content.Arr? && (|content.elems| > 1 || (|content.elems| == 1 && content.elems[0].Obj? && !TextPart(content.elems[0])))
  }

  /** For a backend that takes text only, a message is refused if and only if its contents cannot be written as one
      text. The contents of an accepted one are the text of its only part, or what they were. */
  lemma TextOnlyIff(msg: Value)
    requires msg.Obj?
    ensures var res := C.ContentToString(msg);
            && (res.Ok? <==> !(Content in msg.fields && NoSingleText(msg.fields[Content])))
            && (res.Ok? ==> StillMap(msg, res.value, {Content}) && (Content in res.value.fields <==> Content in msg.fields))
            && (res.Ok? && Content in msg.fields ==>
                  var content, text := msg.fields[Content], res.value.fields[Content];
                  if content.Arr? && |content.elems| == 1 && TextPart(content.elems[0])
                     && Text in content.elems[0].fields && content.elems[0].fields[Text].Str?
                  then text == content.elems[0].fields[Text] else text == content)
  {
  }

  // ---------------------------------------------------------------------------------------------
  // Model responses.

  predicate ListAt(r: Fields, k: Key) {
    k in r && r[k].Arr?
  }

  /** A tool choice that is a map may hold a list of tools. */
  ghost predicate ChoiceCarried(c: Codec, v: Value, v': Value) {
    if v.Obj? then
      && v'.Obj? && OnlyEncoded(c, v.fields, v'.fields, Tools, EncodedTools, ListAt(v.fields, Tools))
    else v' == v
  }

  /** The text options may hold a format with a schema. */
  ghost predicate TextCarried(c: Codec, v: Value, v': Value) {
    if v.Obj? && MapAt(v.fields, Format) then
      && StillMap(v, v', {Format}) && MapAt(v'.fields, Format)
      && var f, f' := v.fields[Format].fields, v'.fields[Format].fields;
         OnlyEncoded(c, f, f', Schema, EncodedSchema, MapAt(f, Schema))
    else v' == v
  }

  ghost predicate TextFieldCarried(c: Codec, v: Option<Value>, v': Option<Value>) {
    if v.None? then v'.None? else v'.Some? && TextCarried(c, v.value, v'.value)
  }

  /** A tool choice that is text stays; any other is renamed, and its tools are encoded. */
  ghost predicate ChoiceFieldCarried(c: Codec, r: Fields, p: Fields) {
    if ToolChoice in r && !r[ToolChoice].Str? then
      ToolChoice !in p && Key.ToolChoiceObject in p && ChoiceCarried(c, r[ToolChoice], p[Key.ToolChoiceObject])
    else Lookup(p, ToolChoice) == Lookup(r, ToolChoice) && Lookup(p, Key.ToolChoiceObject) == Lookup(r, Key.ToolChoiceObject)
  }

  const RESPONSE_KEYS := {Tools, EncodedTools, ToolChoice, Key.ToolChoiceObject, IsTemperatureSet, IsTopPSet, Text, Input, EncodedInput}

  /** A model response request and the body that goes to its message. */
  ghost predicate ResponseCarried(c: Codec, r: Fields, p: Fields) {
    && EncodedAs(c, r, p, Tools, EncodedTools, ListAt(r, Tools))
    && ChoiceFieldCarried(c, r, p)
    && Flagged(r, p, Temperature, IsTemperatureSet) && Flagged(r, p, TopP, IsTopPSet)
    && TextFieldCarried(c, Lookup(r, Text), Lookup(p, Text))
    && EncodedAs(c, r, p, Input, EncodedInput, Input in r && !r[Input].Str?)
    && Untouched(r, p, RESPONSE_KEYS)
  }

  lemma ListStep(c: Codec, r: Fields)
    requires c.Lawful()
    ensures R.ConvertTools(c, r).Ok? && OnlyEncoded(c, r, R.ConvertTools(c, r).value, Tools, EncodedTools, ListAt(r, Tools))
  {
    if ListAt(r, Tools) {
      EncodeFieldIs(c, r, Tools, EncodedTools);
    }
  }

  lemma ChoiceStep(c: Codec, r: Fields)
    requires c.Lawful()
    ensures R.ConvertToolChoiceTools(c, r).Ok?
    ensures var x := R.ConvertToolChoiceTools(c, r).value;
            var p := R.ConvertToolChoice(x);
            p.Ok? && ChoiceFieldCarried(c, r, p.value) && Untouched(r, p.value, {ToolChoice, Key.ToolChoiceObject})
  {
    if MapAt(r, ToolChoice) {
      ListStep(c, r[ToolChoice].fields);
    }
    ToolChoiceStep(R.ConvertToolChoiceTools(c, r).value);
  }

  lemma TextStep(c: Codec, r: Fields)
    requires c.Lawful()
    ensures R.ConvertTextFormatSchema(c, r).Ok?
    ensures var p := R.ConvertTextFormatSchema(c, r).value; TextFieldCarried(c, Lookup(r, Text), Lookup(p, Text)) && Untouched(r, p, {Text})
  {
    if MapAt(r, Text) && MapAt(r[Text].fields, Format) && MapAt(r[Text].fields[Format].fields, Schema) {
      EncodeFieldIs(c, r[Text].fields[Format].fields, Schema, EncodedSchema);
    }
  }

  lemma InputStep(c: Codec, r: Fields)
    requires c.Lawful()
    ensures R.ConvertInput(c, r).Ok?
    ensures OnlyEncoded(c, r, R.ConvertInput(c, r).value, Input, EncodedInput, Input in r && !r[Input].Str?)
  {
    if Input in r && !r[Input].Str? {
      EncodeFieldIs(c, r, Input, EncodedInput);
    }
  }

  ghost predicate ResponseSteps(c: Codec, r: Fields, x1: Fields, x3: Fields, x5: Fields, x6: Fields, p: Fields) {
    && OnlyEncoded(c, r, x1, Tools, EncodedTools, ListAt(r, Tools))
    && ChoiceFieldCarried(c, x1, x3) && Untouched(x1, x3, {ToolChoice, Key.ToolChoiceObject})
    && Flagged(x3, x5, Temperature, IsTemperatureSet) && Flagged(x3, x5, TopP, IsTopPSet)
    && Untouched(x3, x5, {IsTemperatureSet, IsTopPSet})
    && TextFieldCarried(c, Lookup(x5, Text), Lookup(x6, Text)) && Untouched(x5, x6, {Text})
    && OnlyEncoded(c, x6, p, Input, EncodedInput, Input in x6 && !x6[Input].Str?)
  }

  lemma ResponsePath(r: Fields, x1: Fields, x3: Fields, x5: Fields, x6: Fields, p: Fields, k: Key)
    requires Untouched(r, x1, {Tools, EncodedTools}) && Untouched(x1, x3, {ToolChoice, Key.ToolChoiceObject})
    requires Untouched(x3, x5, {IsTemperatureSet, IsTopPSet}) && Untouched(x5, x6, {Text}) && Untouched(x6, p, {Input, EncodedInput})
    ensures k !in {Tools, EncodedTools} ==> SameAt(r, x1, k)
    ensures k !in {ToolChoice, Key.ToolChoiceObject} ==> SameAt(x1, x3, k)
    ensures k !in {IsTemperatureSet, IsTopPSet} ==> SameAt(x3, x5, k)
    ensures k != Text ==> SameAt(x5, x6, k)
    ensures k !in {Input, EncodedInput} ==> SameAt(x6, p, k)
  {
    UntouchedAt(r, x1, {Tools, EncodedTools}, k);
    UntouchedAt(x1, x3, {ToolChoice, Key.ToolChoiceObject}, k);
    UntouchedAt(x3, x5, {IsTemperatureSet, IsTopPSet}, k);
    UntouchedAt(x5, x6, {Text}, k);
    UntouchedAt(x6, p, {Input, EncodedInput}, k);
  }

  lemma ToolsAndInput(c: Codec, r: Fields, x1: Fields, x3: Fields, x5: Fields, x6: Fields, p: Fields)
    requires ResponseSteps(c, r, x1, x3, x5, x6, p)
    ensures EncodedAs(c, r, p, Tools, EncodedTools, ListAt(r, Tools))
    ensures EncodedAs(c, r, p, Input, EncodedInput, Input in r && !r[Input].Str?)
  {
    ResponsePath(r, x1, x3, x5, x6, p, Tools);
    ResponsePath(r, x1, x3, x5, x6, p, EncodedTools);
    ResponsePath(r, x1, x3, x5, x6, p, Input);
    ResponsePath(r, x1, x3, x5, x6, p, EncodedInput);
    EncodedElsewhere(c, r, r, x1, p, Tools, EncodedTools, ListAt(r, Tools));
    EncodedElsewhere(c, r, x6, p, p, Input, EncodedInput, Input in r && !r[Input].Str?);
  }

  lemma ChoiceAndText(c: Codec, r: Fields, x1: Fields, x3: Fields, x5: Fields, x6: Fields, p: Fields)
    requires ResponseSteps(c, r, x1, x3, x5, x6, p)
    ensures ChoiceFieldCarried(c, r, p) && TextFieldCarried(c, Lookup(r, Text), Lookup(p, Text))
  {
    ResponsePath(r, x1, x3, x5, x6, p, ToolChoice);
    ResponsePath(r, x1, x3, x5, x6, p, Key.ToolChoiceObject);
    ResponsePath(r, x1, x3, x5, x6, p, Text);
  }

  lemma Flags(c: Codec, r: Fields, x1: Fields, x3: Fields, x5: Fields, x6: Fields, p: Fields)
    requires ResponseSteps(c, r, x1, x3, x5, x6, p)
    ensures Flagged(r, p, Temperature, IsTemperatureSet) && Flagged(r, p, TopP, IsTopPSet)
  {
    ResponsePath(r, x1, x3, x5, x6, p, Temperature);
    ResponsePath(r, x1, x3, x5, x6, p, IsTemperatureSet);
    ResponsePath(r, x1, x3, x5, x6, p, TopP);
    ResponsePath(r, x1, x3, x5, x6, p, IsTopPSet);
    FlaggedElsewhere(r, x3, x5, p, Temperature, IsTemperatureSet);
    FlaggedElsewhere(r, x3, x5, p, TopP, IsTopPSet);
  }

  lemma ResponseTogether(c: Codec, r: Fields, x1: Fields, x3: Fields, x5: Fields, x6: Fields, p: Fields)
    requires ResponseSteps(c, r, x1, x3, x5, x6, p)
    ensures ResponseCarried(c, r, p)
  {
    ToolsAndInput(c, r, x1, x3, x5, x6, p);
    ChoiceAndText(c, r, x1, x3, x5, x6, p);
    Flags(c, r, x1, x3, x5, x6, p);
    forall k | k !in RESPONSE_KEYS ensures Lookup(p, k) == Lookup(r, k) {
      ResponsePath(r, x1, x3, x5, x6, p, k);
    }
  }

  /** Of every request whatever, and none is refused: lists of tools, also inside a tool choice, a schema that is a
      map, a tool choice and an input that are not text are gone from where they were, and each can be read back
      from what took its place; the two sampling fields are flagged, and nothing else has changed. */
  lemma ResponseIsCarried(c: Codec, r: Fields)
    requires c.Lawful()
    ensures Chain(R.ToProto(c), r).Ok? && ResponseCarried(c, r, Chain(R.ToProto(c), r).value)
  {
    R.ToProtoIs(c, r);
    ListStep(c, r);
    var x1 := R.ConvertTools(c, r).value;
    ChoiceStep(c, x1);
    var x3 := R.EncodeTools(c, r).value;
    PresencesStep(x3);
    var x5 := R.WithPresences(x3);
    TextStep(c, x5);
    var x6 := R.ConvertTextFormatSchema(c, x5).value;
    InputStep(c, x6);
    ResponseTogether(c, r, x1, x3, x5, x6, R.ConvertInput(c, x6).value);
  }
}
