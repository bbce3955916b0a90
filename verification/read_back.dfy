/**
 What the reverse request converters of common/pkg/api do with any body that comes out of a message, also one that
 the forward chain never made: which bodies they read, and what they make of them. Stated for each field by what
 is there before and after, without the converters.
 */
module ReadBack {
  import opened Common
  import opened Json
  import opened WireForm
  import R = Responses
  import C = Chat

  /** Text that decodes to a list, or to a map; a null stands for either. */
  predicate ListText(c: Codec, v: Value) {
    v.Str? && c.decode(v.s).Some? && (c.decode(v.s).value.Arr? || c.decode(v.s).value.Null?)
  }

  predicate MapText(c: Codec, v: Value) {
    v.Str? && c.decode(v.s).Some? && (c.decode(v.s).value.Obj? || c.decode(v.s).value.Null?)
  }

  /** Decoding succeeds exactly on such text; on a value that is no text the converter panics. */
  lemma DecodesIff(c: Codec, v: Value)
    ensures DecodeList(c, v).Ok? <==> ListText(c, v)
    ensures DecodeMap(c, v).Ok? <==> MapText(c, v)
    ensures DecodeList(c, v).Panic? <==> !v.Str?
    ensures DecodeMap(c, v).Panic? <==> !v.Str?
    ensures ListText(c, v) ==> c.decode(v.s) == Some(DecodeList(c, v).value)
    ensures MapText(c, v) ==> c.decode(v.s) == Some(DecodeMap(c, v).value)
  {
  }

  /** An encoded field is gone, and what it decodes to is there, over anything that was. */
  ghost predicate DecodedAs(c: Codec, w: Fields, q: Fields, plain: Key, encoded: Key) {
    if encoded in w then
      w[encoded].Str? && encoded !in q && plain in q && c.decode(w[encoded].s) == Some(q[plain])
    else Lookup(q, plain) == Lookup(w, plain) && encoded !in q
  }

  ghost predicate OnlyDecoded(c: Codec, w: Fields, q: Fields, plain: Key, encoded: Key) {
    DecodedAs(c, w, q, plain, encoded) && Untouched(w, q, {plain, encoded})
  }

  lemma DecodeFieldIs(c: Codec, w: Fields, v: Value, plain: Key, encoded: Key)
    requires plain != encoded && encoded in w && w[encoded].Str? && c.decode(w[encoded].s) == Some(v)
    ensures OnlyDecoded(c, w, w[plain := v] - {encoded}, plain, encoded)
  {
  }

  lemma DecodedElsewhere(c: Codec, w: Fields, x: Fields, y: Fields, q: Fields, plain: Key, encoded: Key)
    requires DecodedAs(c, x, y, plain, encoded)
    requires SameAt(w, x, plain) && SameAt(w, x, encoded) && SameAt(y, q, plain) && SameAt(y, q, encoded)
    ensures DecodedAs(c, w, q, plain, encoded)
  {
  }

  /** A flag is gone; if it was set, and only then, a field that is missing is zero. */
  predicate Unflagged(w: Fields, q: Fields, key: Key, setKey: Key) {
    && setKey !in q
    && Lookup(q, key) == if key !in w && Lookup(w, setKey) == Some(Bool(true)) then Some(Num(Zero)) else Lookup(w, key)
  }

  predicate FlagReadable(w: Fields, setKey: Key) {
    setKey in w ==> w[setKey].Bool?
  }

  lemma FlagStep(w: Fields, key: Key, setKey: Key)
    requires key != setKey
    ensures R.ConvertEncodedPresence(w, key, setKey).Ok? <==> FlagReadable(w, setKey)
    ensures FlagReadable(w, setKey) ==>
              var q := R.ConvertEncodedPresence(w, key, setKey).value; Unflagged(w, q, key, setKey) && Untouched(w, q, {key, setKey})
  {
  }

  lemma UnflaggedElsewhere(w: Fields, x: Fields, y: Fields, q: Fields, key: Key, setKey: Key)
    requires Unflagged(x, y, key, setKey)
    requires SameAt(w, x, key) && SameAt(w, x, setKey) && SameAt(y, q, key) && SameAt(y, q, setKey)
    ensures Unflagged(w, q, key, setKey)
  {
  }

  /** The tool choice as it is after `tool_choice_object` has got its old name back. */
  function ChoiceOf(w: Fields): Option<Value> {
    if Key.ToolChoiceObject in w then Some(w[Key.ToolChoiceObject]) else Lookup(w, ToolChoice)
  }

  lemma ChoiceObjectStep(w: Fields)
    ensures R.ConvertToolChoiceObject(w).Ok?
    ensures var q := R.ConvertToolChoiceObject(w).value;
            && Key.ToolChoiceObject !in q && Lookup(q, ToolChoice) == ChoiceOf(w)
            && Untouched(w, q, {ToolChoice, Key.ToolChoiceObject})
  {
  }

  // ---------------------------------------------------------------------------------------------
  // Model responses.

  ghost predicate ChoiceReadable(c: Codec, v: Option<Value>) {
    v.Some? && MapAtTop(v.value, EncodedTools) ==> ListText(c, v.value.fields[EncodedTools])
  }

  predicate MapAtTop(v: Value, k: Key) {
    v.Obj? && k in v.fields
  }

  ghost predicate ChoiceRead(c: Codec, v: Option<Value>, v': Option<Value>) {
    if v.Some? && v.value.Obj? then
      v'.Some? && v'.value.Obj? && OnlyDecoded(c, v.value.fields, v'.value.fields, Tools, EncodedTools)
    else v' == v
  }

  ghost predicate TextReadable(c: Codec, v: Option<Value>) {
    v.Some? && v.value.Obj? && MapAt(v.value.fields, Format) && EncodedSchema in v.value.fields[Format].fields ==>
      MapText(c, v.value.fields[Format].fields[EncodedSchema])
  }

  ghost predicate TextRead(c: Codec, v: Option<Value>, v': Option<Value>) {
    if v.Some? && v.value.Obj? && MapAt(v.value.fields, Format) then
      && v'.Some? && StillMap(v.value, v'.value, {Format}) && MapAt(v'.value.fields, Format)
      && OnlyDecoded(c, v.value.fields[Format].fields, v'.value.fields[Format].fields, Schema, EncodedSchema)
    else v' == v
  }

  /** The bodies that can be read, field by field. */
  ghost predicate ResponseReadable(c: Codec, w: Fields) {
    && (EncodedInput in w ==> ListText(c, w[EncodedInput]))
    && TextReadable(c, Lookup(w, Text))
    && FlagReadable(w, IsTopPSet) && FlagReadable(w, IsTemperatureSet)
    && ChoiceReadable(c, ChoiceOf(w))
    && (EncodedTools in w ==> ListText(c, w[EncodedTools]))
  }

  const READ_RESPONSE_KEYS := {Input, EncodedInput, Text, TopP, IsTopPSet, Temperature, IsTemperatureSet,
                               ToolChoice, Key.ToolChoiceObject, Tools, EncodedTools}

  /** A body and the request that is made of it. */
  ghost predicate ResponseRead(c: Codec, w: Fields, q: Fields) {
    && DecodedAs(c, w, q, Input, EncodedInput)
    && TextRead(c, Lookup(w, Text), Lookup(q, Text))
    && Unflagged(w, q, TopP, IsTopPSet) && Unflagged(w, q, Temperature, IsTemperatureSet)
    && ChoiceRead(c, ChoiceOf(w), Lookup(q, ToolChoice)) && Key.ToolChoiceObject !in q
    && DecodedAs(c, w, q, Tools, EncodedTools)
    && Untouched(w, q, READ_RESPONSE_KEYS)
  }

  lemma InputStep(c: Codec, w: Fields)
    ensures R.ConvertEncodedInput(c, w).Ok? <==> (EncodedInput in w ==> ListText(c, w[EncodedInput]))
    ensures R.ConvertEncodedInput(c, w).Ok? ==> OnlyDecoded(c, w, R.ConvertEncodedInput(c, w).value, Input, EncodedInput)
  {
    if EncodedInput in w {
      DecodesIff(c, w[EncodedInput]);
      if ListText(c, w[EncodedInput]) {
        DecodeFieldIs(c, w, DecodeList(c, w[EncodedInput]).value, Input, EncodedInput);
      }
    }
  }

  lemma ListStep(c: Codec, w: Fields)
    ensures R.ConvertEncodedTools(c, w).Ok? <==> (EncodedTools in w ==> ListText(c, w[EncodedTools]))
    ensures R.ConvertEncodedTools(c, w).Ok? ==> OnlyDecoded(c, w, R.ConvertEncodedTools(c, w).value, Tools, EncodedTools)
  {
    if EncodedTools in w {
      DecodesIff(c, w[EncodedTools]);
      if ListText(c, w[EncodedTools]) {
        DecodeFieldIs(c, w, DecodeList(c, w[EncodedTools]).value, Tools, EncodedTools);
      }
    }
  }

  lemma ChoiceStep(c: Codec, w: Fields)
    ensures R.ConvertEncodedToolChoiceTools(c, w).Ok? <==> ChoiceReadable(c, Lookup(w, ToolChoice))
    ensures R.ConvertEncodedToolChoiceTools(c, w).Ok? ==>
              var q := R.ConvertEncodedToolChoiceTools(c, w).value;
              ChoiceRead(c, Lookup(w, ToolChoice), Lookup(q, ToolChoice)) && Untouched(w, q, {ToolChoice})
  {
    if MapAt(w, ToolChoice) {
      ListStep(c, w[ToolChoice].fields);
    }
  }

  lemma TextStep(c: Codec, w: Fields)
    ensures R.ConvertEncodedTextFormatSchema(c, w).Ok? <==> TextReadable(c, Lookup(w, Text))
    ensures R.ConvertEncodedTextFormatSchema(c, w).Ok? ==>
              var q := R.ConvertEncodedTextFormatSchema(c, w).value;
              TextRead(c, Lookup(w, Text), Lookup(q, Text)) && Untouched(w, q, {Text})
  {
    if MapAt(w, Text) && MapAt(w[Text].fields, Format) && EncodedSchema in w[Text].fields[Format].fields {
      var f := w[Text].fields[Format].fields;
      DecodesIff(c, f[EncodedSchema]);
      if MapText(c, f[EncodedSchema]) {
        DecodeFieldIs(c, f, DecodeMap(c, f[EncodedSchema]).value, Schema, EncodedSchema);
      }
    }
  }

  ghost predicate ResponseSteps(c: Codec, w: Fields, y6: Fields, y5: Fields, y4: Fields, y3: Fields, y2: Fields, y1: Fields, q: Fields) {
    && OnlyDecoded(c, w, y6, Input, EncodedInput)
    && TextRead(c, Lookup(y6, Text), Lookup(y5, Text)) && Untouched(y6, y5, {Text})
    && Unflagged(y5, y4, TopP, IsTopPSet) && Untouched(y5, y4, {TopP, IsTopPSet})
    && Unflagged(y4, y3, Temperature, IsTemperatureSet) && Untouched(y4, y3, {Temperature, IsTemperatureSet})
    && Key.ToolChoiceObject !in y2 && Lookup(y2, ToolChoice) == ChoiceOf(y3) && Untouched(y3, y2, {ToolChoice, Key.ToolChoiceObject})
    && ChoiceRead(c, Lookup(y2, ToolChoice), Lookup(y1, ToolChoice)) && Untouched(y2, y1, {ToolChoice})
    && OnlyDecoded(c, y1, q, Tools, EncodedTools)
  }

  lemma ResponsePath(w: Fields, y6: Fields, y5: Fields, y4: Fields, y3: Fields, y2: Fields, y1: Fields, q: Fields, k: Key)
    requires Untouched(w, y6, {Input, EncodedInput}) && Untouched(y6, y5, {Text})
    requires Untouched(y5, y4, {TopP, IsTopPSet}) && Untouched(y4, y3, {Temperature, IsTemperatureSet})
    requires Untouched(y3, y2, {ToolChoice, Key.ToolChoiceObject}) && Untouched(y2, y1, {ToolChoice})
    requires Untouched(y1, q, {Tools, EncodedTools})
    ensures k !in {Input, EncodedInput} ==> SameAt(w, y6, k)
    ensures k != Text ==> SameAt(y6, y5, k)
    ensures k !in {TopP, IsTopPSet} ==> SameAt(y5, y4, k)
    ensures k !in {Temperature, IsTemperatureSet} ==> SameAt(y4, y3, k)
    ensures k !in {ToolChoice, Key.ToolChoiceObject} ==> SameAt(y3, y2, k)
    ensures k != ToolChoice ==> SameAt(y2, y1, k)
    ensures k !in {Tools, EncodedTools} ==> SameAt(y1, q, k)
  {
    UntouchedAt(w, y6, {Input, EncodedInput}, k);
    UntouchedAt(y6, y5, {Text}, k);
    UntouchedAt(y5, y4, {TopP, IsTopPSet}, k);
    UntouchedAt(y4, y3, {Temperature, IsTemperatureSet}, k);
    UntouchedAt(y3, y2, {ToolChoice, Key.ToolChoiceObject}, k);
    UntouchedAt(y2, y1, {ToolChoice}, k);
    UntouchedAt(y1, q, {Tools, EncodedTools}, k);
  }

  lemma InputAndTools(c: Codec, w: Fields, y6: Fields, y5: Fields, y4: Fields, y3: Fields, y2: Fields, y1: Fields, q: Fields)
    requires ResponseSteps(c, w, y6, y5, y4, y3, y2, y1, q)
    ensures DecodedAs(c, w, q, Input, EncodedInput) && DecodedAs(c, w, q, Tools, EncodedTools)
  {
    ResponsePath(w, y6, y5, y4, y3, y2, y1, q, Input);
    ResponsePath(w, y6, y5, y4, y3, y2, y1, q, EncodedInput);
    ResponsePath(w, y6, y5, y4, y3, y2, y1, q, Tools);
    ResponsePath(w, y6, y5, y4, y3, y2, y1, q, EncodedTools);
    DecodedElsewhere(c, w, w, y6, q, Input, EncodedInput);
    DecodedElsewhere(c, w, y1, q, q, Tools, EncodedTools);
  }

  lemma TextAndChoice(c: Codec, w: Fields, y6: Fields, y5: Fields, y4: Fields, y3: Fields, y2: Fields, y1: Fields, q: Fields)
    requires ResponseSteps(c, w, y6, y5, y4, y3, y2, y1, q)
    ensures TextRead(c, Lookup(w, Text), Lookup(q, Text))
    ensures ChoiceRead(c, ChoiceOf(w), Lookup(q, ToolChoice)) && Key.ToolChoiceObject !in q
  {
    ResponsePath(w, y6, y5, y4, y3, y2, y1, q, Text);
    ResponsePath(w, y6, y5, y4, y3, y2, y1, q, ToolChoice);
    ResponsePath(w, y6, y5, y4, y3, y2, y1, q, Key.ToolChoiceObject);
    assert ChoiceOf(y3) == ChoiceOf(w);
  }

  lemma FlagsOff(c: Codec, w: Fields, y6: Fields, y5: Fields, y4: Fields, y3: Fields, y2: Fields, y1: Fields, q: Fields)
    requires ResponseSteps(c, w, y6, y5, y4, y3, y2, y1, q)
    ensures Unflagged(w, q, TopP, IsTopPSet) && Unflagged(w, q, Temperature, IsTemperatureSet)
  {
    ResponsePath(w, y6, y5, y4, y3, y2, y1, q, TopP);
    ResponsePath(w, y6, y5, y4, y3, y2, y1, q, IsTopPSet);
    ResponsePath(w, y6, y5, y4, y3, y2, y1, q, Temperature);
    ResponsePath(w, y6, y5, y4, y3, y2, y1, q, IsTemperatureSet);
    UnflaggedElsewhere(w, y5, y4, q, TopP, IsTopPSet);
    UnflaggedElsewhere(w, y4, y3, q, Temperature, IsTemperatureSet);
  }

  lemma ResponseTogether(c: Codec, w: Fields, y6: Fields, y5: Fields, y4: Fields, y3: Fields, y2: Fields, y1: Fields, q: Fields)
    requires ResponseSteps(c, w, y6, y5, y4, y3, y2, y1, q)
    ensures ResponseRead(c, w, q)
  {
    InputAndTools(c, w, y6, y5, y4, y3, y2, y1, q);
    TextAndChoice(c, w, y6, y5, y4, y3, y2, y1, q);
    FlagsOff(c, w, y6, y5, y4, y3, y2, y1, q);
    forall k | k !in READ_RESPONSE_KEYS ensures Lookup(q, k) == Lookup(w, k) {
      ResponsePath(w, y6, y5, y4, y3, y2, y1, q, k);
    }
  }

  /** The three tool converters, after the others. */
  lemma ToolsReadIff(c: Codec, y3: Fields)
    ensures R.DecodeTools(c, y3).Ok? <==> ChoiceReadable(c, ChoiceOf(y3)) && (EncodedTools in y3 ==> ListText(c, y3[EncodedTools]))
  {
    ChoiceObjectStep(y3);
    var y2 := R.ConvertToolChoiceObject(y3).value;
    ChoiceStep(c, y2);
    assert SameAt(y3, y2, EncodedTools);
    if R.ConvertEncodedToolChoiceTools(c, y2).Ok? {
      var y1 := R.ConvertEncodedToolChoiceTools(c, y2).value;
      assert SameAt(y2, y1, EncodedTools);
      ListStep(c, y1);
    }
  }

  /** The two flags, one after the other. */
  function FlagsOf(y5: Fields): Outcome<Fields> {
    var y4 :- R.ConvertEncodedPresence(y5, TopP, IsTopPSet);
    R.ConvertEncodedPresence(y4, Temperature, IsTemperatureSet)
  }

  lemma FlagsReadIff(y5: Fields)
    ensures FlagsOf(y5).Ok? <==> FlagReadable(y5, IsTopPSet) && FlagReadable(y5, IsTemperatureSet)
    ensures FlagsOf(y5).Ok? ==> Untouched(y5, FlagsOf(y5).value, {TopP, IsTopPSet, Temperature, IsTemperatureSet})
  {
    FlagStep(y5, TopP, IsTopPSet);
    if FlagReadable(y5, IsTopPSet) {
      var y4 := R.ConvertEncodedPresence(y5, TopP, IsTopPSet).value;
      assert SameAt(y5, y4, IsTemperatureSet);
      FlagStep(y4, Temperature, IsTemperatureSet);
      if FlagReadable(y4, IsTemperatureSet) {
        var y3 := R.ConvertEncodedPresence(y4, Temperature, IsTemperatureSet).value;
        forall k | k !in {TopP, IsTopPSet, Temperature, IsTemperatureSet} ensures Lookup(y3, k) == Lookup(y5, k) {
          UntouchedAt(y5, y4, {TopP, IsTopPSet}, k);
          UntouchedAt(y4, y3, {Temperature, IsTemperatureSet}, k);
        }
      }
    }
  }

  lemma FlagsAndToolsReadIff(c: Codec, y5: Fields)
    ensures (FlagsOf(y5).Ok? && R.DecodeTools(c, FlagsOf(y5).value).Ok?) <==>
              && FlagReadable(y5, IsTopPSet) && FlagReadable(y5, IsTemperatureSet)
              && ChoiceReadable(c, ChoiceOf(y5)) && (EncodedTools in y5 ==> ListText(c, y5[EncodedTools]))
  {
    FlagsReadIff(y5);
    if FlagsOf(y5).Ok? {
      var y3 := FlagsOf(y5).value;
      assert SameAt(y5, y3, ToolChoice) && SameAt(y5, y3, Key.ToolChoiceObject) && SameAt(y5, y3, EncodedTools);
      ToolsReadIff(c, y3);
    }
  }

  /** The reverse chain reads a body if and only if every encoded field in it is text that decodes to a list, or a
      map where that is expected, or a null, and the flags are booleans. */
  lemma ResponseReadableIff(c: Codec, w: Fields)
    ensures Chain(R.ToOpenAI(c), w).Ok? <==> ResponseReadable(c, w)
  {
    R.ToOpenAIIs(c, w);
    InputStep(c, w);
    if R.ConvertEncodedInput(c, w).Ok? {
      var y6 := R.ConvertEncodedInput(c, w).value;
      assert SameAt(w, y6, Text) && SameAt(w, y6, IsTopPSet) && SameAt(w, y6, IsTemperatureSet);
      assert SameAt(w, y6, ToolChoice) && SameAt(w, y6, Key.ToolChoiceObject) && SameAt(w, y6, EncodedTools);
      TextStep(c, y6);
      if R.ConvertEncodedTextFormatSchema(c, y6).Ok? {
        var y5 := R.ConvertEncodedTextFormatSchema(c, y6).value;
        assert SameAt(y6, y5, IsTopPSet) && SameAt(y6, y5, IsTemperatureSet);
        assert SameAt(y6, y5, ToolChoice) && SameAt(y6, y5, Key.ToolChoiceObject) && SameAt(y6, y5, EncodedTools);
        FlagsAndToolsReadIff(c, y5);
      }
    }
  }

  /** Of every body that the reverse chain reads: no encoded field, flag or `tool_choice_object` is left, each encoded
      field is what it decodes to under its plain name, a flag that was set has made a missing field zero, and
      nothing else has changed. */
  lemma ResponseIsRead(c: Codec, w: Fields)
    requires Chain(R.ToOpenAI(c), w).Ok?
    ensures ResponseRead(c, w, Chain(R.ToOpenAI(c), w).value)
  {
    R.ToOpenAIIs(c, w);
    var y6 := R.ConvertEncodedInput(c, w).value;
    var y5 := R.ConvertEncodedTextFormatSchema(c, y6).value;
    var y4 := R.ConvertEncodedPresence(y5, TopP, IsTopPSet).value;
    var y3 := R.ConvertEncodedPresence(y4, Temperature, IsTemperatureSet).value;
    var y2 := R.ConvertToolChoiceObject(y3).value;
    var y1 := R.ConvertEncodedToolChoiceTools(c, y2).value;
    var q := R.ConvertEncodedTools(c, y1).value;
    InputStep(c, w);
    TextStep(c, y6);
    FlagStep(y5, TopP, IsTopPSet);
    FlagStep(y4, Temperature, IsTemperatureSet);
    ChoiceObjectStep(y3);
    ChoiceStep(c, y2);
    ListStep(c, y1);
    ResponseTogether(c, w, y6, y5, y4, y3, y2, y1, q);
  }

  // ---------------------------------------------------------------------------------------------
  // Chat completions.

  ghost predicate ToolReadable(c: Codec, v: Value) {
    && v.Obj?
    && (Function in v.fields ==> v.fields[Function].Obj?)
    && (MapAt(v.fields, Function) && EncodedParameters in v.fields[Function].fields ==> MapText(c, v.fields[Function].fields[EncodedParameters]))
  }

  ghost predicate ToolRead(c: Codec, v: Value, v': Value) {
    if v.Obj? && MapAt(v.fields, Function) then
      && StillMap(v, v', {Function}) && MapAt(v'.fields, Function)
      && OnlyDecoded(c, v.fields[Function].fields, v'.fields[Function].fields, Parameters, EncodedParameters)
    else v' == v
  }

  ghost predicate ToolsReadable(c: Codec, v: Option<Value>) {
    v.Some? ==> v.value.Arr? && forall i :: 0 <= i < |v.value.elems| ==> ToolReadable(c, v.value.elems[i])
  }

  ghost predicate ToolsRead(c: Codec, v: Option<Value>, v': Option<Value>) {
    if v.None? then v'.None?
    else
      && v.value.Arr? && v'.Some? && v'.value.Arr? && |v'.value.elems| == |v.value.elems|
      && forall i :: 0 <= i < |v.value.elems| ==> ToolRead(c, v.value.elems[i], v'.value.elems[i])
  }

  /** A response format of the type that has a schema, which is encoded. */
  predicate EncodedFormat(v: Value) {
    && v.Obj? && Lookup(v.fields, Type) == Some(Str("json_schema")) && MapAt(v.fields, JsonSchema)
    && EncodedSchema in v.fields[JsonSchema].fields
  }

  ghost predicate FormatReadable(c: Codec, v: Option<Value>) {
    v.Some? ==>
      || (v.value.Obj? && Lookup(v.value.fields, Type) in {Some(Str("text")), Some(Str("json_object"))})
      || (EncodedFormat(v.value) && MapText(c, v.value.fields[JsonSchema].fields[EncodedSchema]))
  }

  ghost predicate FormatRead(c: Codec, v: Option<Value>, v': Option<Value>) {
    if v.Some? && EncodedFormat(v.value) then
      && v'.Some? && StillMap(v.value, v'.value, {JsonSchema}) && MapAt(v'.value.fields, JsonSchema)
      && OnlyDecoded(c, v.value.fields[JsonSchema].fields, v'.value.fields[JsonSchema].fields, Schema, EncodedSchema)
    else v' == v
  }

  ghost predicate ChatReadable(c: Codec, w: Fields) {
    && FormatReadable(c, Lookup(w, Key.ResponseFormat))
    && FlagReadable(w, IsTopPSet) && FlagReadable(w, IsTemperatureSet)
    && (EncodedChatTemplateKwargs in w ==> MapText(c, w[EncodedChatTemplateKwargs]))
    && ToolsReadable(c, Lookup(w, Tools))
  }

  const READ_CHAT_KEYS := {Key.ResponseFormat, TopP, IsTopPSet, Temperature, IsTemperatureSet, ChatTemplateKwargs,
                           EncodedChatTemplateKwargs, Tools, ToolChoice, Key.ToolChoiceObject}

  ghost predicate ChatRead(c: Codec, w: Fields, q: Fields) {
    && FormatRead(c, Lookup(w, Key.ResponseFormat), Lookup(q, Key.ResponseFormat))
    && Unflagged(w, q, TopP, IsTopPSet) && Unflagged(w, q, Temperature, IsTemperatureSet)
    && DecodedAs(c, w, q, ChatTemplateKwargs, EncodedChatTemplateKwargs)
    && ToolsRead(c, Lookup(w, Tools), Lookup(q, Tools))
    && Lookup(q, ToolChoice) == ChoiceOf(w) && Key.ToolChoiceObject !in q
    && Untouched(w, q, READ_CHAT_KEYS)
  }

  lemma ToolStep(c: Codec, v: Value)
    ensures C.ConvertEncodedTool(c, v).Ok? <==> ToolReadable(c, v)
    ensures C.ConvertEncodedTool(c, v).Ok? ==> ToolRead(c, v, C.ConvertEncodedTool(c, v).value)
  {
    if v.Obj? && MapAt(v.fields, Function) && EncodedParameters in v.fields[Function].fields {
      var fn := v.fields[Function].fields;
      DecodesIff(c, fn[EncodedParameters]);
      if MapText(c, fn[EncodedParameters]) {
        DecodeFieldIs(c, fn, DecodeMap(c, fn[EncodedParameters]).value, Parameters, EncodedParameters);
      }
    }
  }

  lemma ToolsStep(c: Codec, w: Fields)
    ensures C.ConvertEncodedFunctionParameters(c, w).Ok? <==> ToolsReadable(c, Lookup(w, Tools))
    ensures C.ConvertEncodedFunctionParameters(c, w).Ok? ==>
              var q := C.ConvertEncodedFunctionParameters(c, w).value;
              ToolsRead(c, Lookup(w, Tools), Lookup(q, Tools)) && Untouched(w, q, {Tools})
  {
    if Tools in w && w[Tools].Arr? {
      var vs := w[Tools].elems;
      ForEachIs(v => C.ConvertEncodedTool(c, v), vs);
      forall i | 0 <= i < |vs|
        ensures C.ConvertEncodedTool(c, vs[i]).Ok? <==> ToolReadable(c, vs[i])
        ensures C.ConvertEncodedTool(c, vs[i]).Ok? ==> ToolRead(c, vs[i], C.ConvertEncodedTool(c, vs[i]).value)
      {
        ToolStep(c, vs[i]);
      }
    }
  }

  lemma KwargsStep(c: Codec, w: Fields)
    ensures C.ConvertEncodedChatTemplateKwargs(c, w).Ok? <==> (EncodedChatTemplateKwargs in w ==> MapText(c, w[EncodedChatTemplateKwargs]))
    ensures C.ConvertEncodedChatTemplateKwargs(c, w).Ok? ==>
              OnlyDecoded(c, w, C.ConvertEncodedChatTemplateKwargs(c, w).value, ChatTemplateKwargs, EncodedChatTemplateKwargs)
  {
    if EncodedChatTemplateKwargs in w {
      DecodesIff(c, w[EncodedChatTemplateKwargs]);
      if MapText(c, w[EncodedChatTemplateKwargs]) {
        DecodeFieldIs(c, w, DecodeMap(c, w[EncodedChatTemplateKwargs]).value, ChatTemplateKwargs, EncodedChatTemplateKwargs);
      }
    }
  }

  lemma FormatStep(c: Codec, w: Fields)
    ensures C.ConvertEncodedResponseFormat(c, w).Ok? <==> FormatReadable(c, Lookup(w, Key.ResponseFormat))
    ensures C.ConvertEncodedResponseFormat(c, w).Ok? ==>
              var q := C.ConvertEncodedResponseFormat(c, w).value;
              && FormatRead(c, Lookup(w, Key.ResponseFormat), Lookup(q, Key.ResponseFormat))
              && Untouched(w, q, {Key.ResponseFormat})
  {
    if Key.ResponseFormat in w && EncodedFormat(w[Key.ResponseFormat]) {
      var js := w[Key.ResponseFormat].fields[JsonSchema].fields;
      DecodesIff(c, js[EncodedSchema]);
      if MapText(c, js[EncodedSchema]) {
        DecodeFieldIs(c, js, DecodeMap(c, js[EncodedSchema]).value, Schema, EncodedSchema);
      }
    }
  }

  ghost predicate ChatSteps(c: Codec, w: Fields, y5: Fields, y4: Fields, y3: Fields, y2: Fields, y1: Fields, q: Fields) {
    && FormatRead(c, Lookup(w, Key.ResponseFormat), Lookup(y5, Key.ResponseFormat)) && Untouched(w, y5, {Key.ResponseFormat})
    && Unflagged(y5, y4, TopP, IsTopPSet) && Untouched(y5, y4, {TopP, IsTopPSet})
    && Unflagged(y4, y3, Temperature, IsTemperatureSet) && Untouched(y4, y3, {Temperature, IsTemperatureSet})
    && OnlyDecoded(c, y3, y2, ChatTemplateKwargs, EncodedChatTemplateKwargs)
    && ToolsRead(c, Lookup(y2, Tools), Lookup(y1, Tools)) && Untouched(y2, y1, {Tools})
    && Key.ToolChoiceObject !in q && Lookup(q, ToolChoice) == ChoiceOf(y1) && Untouched(y1, q, {ToolChoice, Key.ToolChoiceObject})
  }

  lemma ChatPath(w: Fields, y5: Fields, y4: Fields, y3: Fields, y2: Fields, y1: Fields, q: Fields, k: Key)
    requires Untouched(w, y5, {Key.ResponseFormat}) && Untouched(y5, y4, {TopP, IsTopPSet})
    requires Untouched(y4, y3, {Temperature, IsTemperatureSet})
    requires Untouched(y3, y2, {ChatTemplateKwargs, EncodedChatTemplateKwargs}) && Untouched(y2, y1, {Tools})
    requires Untouched(y1, q, {ToolChoice, Key.ToolChoiceObject})
    ensures k != Key.ResponseFormat ==> SameAt(w, y5, k)
    ensures k !in {TopP, IsTopPSet} ==> SameAt(y5, y4, k)
    ensures k !in {Temperature, IsTemperatureSet} ==> SameAt(y4, y3, k)
    ensures k !in {ChatTemplateKwargs, EncodedChatTemplateKwargs} ==> SameAt(y3, y2, k)
    ensures k != Tools ==> SameAt(y2, y1, k)
    ensures k !in {ToolChoice, Key.ToolChoiceObject} ==> SameAt(y1, q, k)
  {
    UntouchedAt(w, y5, {Key.ResponseFormat}, k);
    UntouchedAt(y5, y4, {TopP, IsTopPSet}, k);
    UntouchedAt(y4, y3, {Temperature, IsTemperatureSet}, k);
    UntouchedAt(y3, y2, {ChatTemplateKwargs, EncodedChatTemplateKwargs}, k);
    UntouchedAt(y2, y1, {Tools}, k);
    UntouchedAt(y1, q, {ToolChoice, Key.ToolChoiceObject}, k);
  }

  lemma FormatAndFlags(c: Codec, w: Fields, y5: Fields, y4: Fields, y3: Fields, y2: Fields, y1: Fields, q: Fields)
    requires ChatSteps(c, w, y5, y4, y3, y2, y1, q)
    ensures FormatRead(c, Lookup(w, Key.ResponseFormat), Lookup(q, Key.ResponseFormat))
    ensures Unflagged(w, q, TopP, IsTopPSet) && Unflagged(w, q, Temperature, IsTemperatureSet)
  {
    ChatPath(w, y5, y4, y3, y2, y1, q, Key.ResponseFormat);
    ChatPath(w, y5, y4, y3, y2, y1, q, TopP);
    ChatPath(w, y5, y4, y3, y2, y1, q, IsTopPSet);
    ChatPath(w, y5, y4, y3, y2, y1, q, Temperature);
    ChatPath(w, y5, y4, y3, y2, y1, q, IsTemperatureSet);
    UnflaggedElsewhere(w, y5, y4, q, TopP, IsTopPSet);
    UnflaggedElsewhere(w, y4, y3, q, Temperature, IsTemperatureSet);
  }

  lemma KwargsAndTools(c: Codec, w: Fields, y5: Fields, y4: Fields, y3: Fields, y2: Fields, y1: Fields, q: Fields)
    requires ChatSteps(c, w, y5, y4, y3, y2, y1, q)
    ensures DecodedAs(c, w, q, ChatTemplateKwargs, EncodedChatTemplateKwargs)
    ensures ToolsRead(c, Lookup(w, Tools), Lookup(q, Tools))
    ensures Lookup(q, ToolChoice) == ChoiceOf(w) && Key.ToolChoiceObject !in q
  {
    ChatPath(w, y5, y4, y3, y2, y1, q, ChatTemplateKwargs);
    ChatPath(w, y5, y4, y3, y2, y1, q, EncodedChatTemplateKwargs);
    ChatPath(w, y5, y4, y3, y2, y1, q, Tools);
    ChatPath(w, y5, y4, y3, y2, y1, q, ToolChoice);
    ChatPath(w, y5, y4, y3, y2, y1, q, Key.ToolChoiceObject);
    DecodedElsewhere(c, w, y3, y2, q, ChatTemplateKwargs, EncodedChatTemplateKwargs);
    assert ChoiceOf(y1) == ChoiceOf(w);
  }

  lemma ChatTogether(c: Codec, w: Fields, y5: Fields, y4: Fields, y3: Fields, y2: Fields, y1: Fields, q: Fields)
    requires ChatSteps(c, w, y5, y4, y3, y2, y1, q)
    ensures ChatRead(c, w, q)
  {
    FormatAndFlags(c, w, y5, y4, y3, y2, y1, q);
    KwargsAndTools(c, w, y5, y4, y3, y2, y1, q);
    forall k | k !in READ_CHAT_KEYS ensures Lookup(q, k) == Lookup(w, k) {
      ChatPath(w, y5, y4, y3, y2, y1, q, k);
    }
  }

  lemma DecodeReadableIff(c: Codec, w: Fields)
    ensures C.Decode(c, w).Ok? <==> ChatReadable(c, w)
  {
    FormatStep(c, w);
    if C.ConvertEncodedResponseFormat(c, w).Ok? {
      var y5 := C.ConvertEncodedResponseFormat(c, w).value;
      assert SameAt(w, y5, IsTopPSet) && SameAt(w, y5, IsTemperatureSet) && SameAt(w, y5, EncodedChatTemplateKwargs) && SameAt(w, y5, Tools);
      FlagsReadIff(y5);
      if FlagsOf(y5).Ok? {
        var y3 := FlagsOf(y5).value;
        assert SameAt(y5, y3, EncodedChatTemplateKwargs) && SameAt(y5, y3, Tools);
        KwargsStep(c, y3);
        if C.ConvertEncodedChatTemplateKwargs(c, y3).Ok? {
          var y2 := C.ConvertEncodedChatTemplateKwargs(c, y3).value;
          assert SameAt(y3, y2, Tools);
          ToolsStep(c, y2);
          if C.ConvertEncodedFunctionParameters(c, y2).Ok? {
            ChoiceObjectStep(C.ConvertEncodedFunctionParameters(c, y2).value);
          }
        }
      }
    }
  }

  lemma DecodeIsRead(c: Codec, w: Fields)
    requires C.Decode(c, w).Ok?
    ensures ChatRead(c, w, C.Decode(c, w).value)
  {
    var y5 := C.ConvertEncodedResponseFormat(c, w).value;
    var y4 := R.ConvertEncodedPresence(y5, TopP, IsTopPSet).value;
    var y3 := R.ConvertEncodedPresence(y4, Temperature, IsTemperatureSet).value;
    var y2 := C.ConvertEncodedChatTemplateKwargs(c, y3).value;
    var y1 := C.ConvertEncodedFunctionParameters(c, y2).value;
    FormatStep(c, w);
    FlagStep(y5, TopP, IsTopPSet);
    FlagStep(y4, Temperature, IsTemperatureSet);
    KwargsStep(c, y3);
    ToolsStep(c, y2);
    ChoiceObjectStep(y1);
    ChatTogether(c, w, y5, y4, y3, y2, y1, R.ConvertToolChoiceObject(y1).value);
  }

  /** The reverse chain for chat reads a body if and only if its encoded fields are text that decodes to maps or null,
      its flags are booleans, its tools and functions are maps, and its response format is of a known type, with
      its encoded schema where that is demanded. */
  lemma ChatReadableIff(c: Codec, w: Fields)
    ensures Chain(C.ToOpenAI(c, false), w).Ok? <==> ChatReadable(c, w)
  {
    C.ToOpenAIIs(c, false, w);
    DecodeReadableIff(c, w);
  }

  /** Of every body that it reads: no encoded field, flag or `tool_choice_object` is left, each encoded field is what it
      decodes to under its plain name, a flag that was set has made a missing field zero, and nothing else has
      changed. */
  lemma ChatIsRead(c: Codec, w: Fields)
    requires Chain(C.ToOpenAI(c, false), w).Ok?
    ensures ChatRead(c, w, Chain(C.ToOpenAI(c, false), w).value)
  {
    C.ToOpenAIIs(c, false, w);
    DecodeIsRead(c, w);
  }

  ghost predicate AllSingleText(v: Option<Value>) {
    v.Some? ==>
      && v.value.Arr?
      && forall i :: 0 <= i < |v.value.elems| ==>
           v.value.elems[i].Obj? && !(Content in v.value.elems[i].fields && NoSingleText(v.value.elems[i].fields[Content]))
  }

  lemma TextsStep(w: Fields)
    ensures C.ConvertContentArrayToString(w).Ok? <==> AllSingleText(Lookup(w, Messages))
    ensures C.ConvertContentArrayToString(w).Ok? ==> Untouched(w, C.ConvertContentArrayToString(w).value, {Messages})
  {
    if Messages in w && w[Messages].Arr? {
      var vs := w[Messages].elems;
      ForEachIs(C.ContentToString, vs);
      forall i | 0 <= i < |vs|
        ensures C.ContentToString(vs[i]).Ok? <==> vs[i].Obj? && !(Content in vs[i].fields && NoSingleText(vs[i].fields[Content]))
      {
        if vs[i].Obj? {
          TextOnlyIff(vs[i]);
        }
      }
    }
  }

  lemma ReadableSame(c: Codec, w: Fields, w': Fields)
    requires Untouched(w, w', {Messages})
    ensures ChatReadable(c, w') <==> ChatReadable(c, w)
  {
    assert SameAt(w, w', Key.ResponseFormat) && SameAt(w, w', IsTopPSet) && SameAt(w, w', IsTemperatureSet);
    assert SameAt(w, w', EncodedChatTemplateKwargs) && SameAt(w, w', Tools);
  }

  /** Asked for the string format, the chain moreover demands that all contents can be written as one text. */
  lemma ChatReadableAsTextIff(c: Codec, w: Fields)
    ensures Chain(C.ToOpenAI(c, true), w).Ok? <==> AllSingleText(Lookup(w, Messages)) && ChatReadable(c, w)
  {
    C.ToOpenAIIs(c, true, w);
    TextsStep(w);
    if C.ConvertContentArrayToString(w).Ok? {
      var w' := C.ConvertContentArrayToString(w).value;
      ReadableSame(c, w, w');
      DecodeReadableIff(c, w');
    }
  }
}
