/** The model response converters of common/pkg/api, and the top-level ones they share with chat. */
module Responses {
  import opened Common
  import opened Json

  function ConvertTools(c: Codec, r: Fields): Outcome<Fields> {
    if Tools !in r || !r[Tools].Arr? then Ok(r) else Ok(EncodeField(c, r, Tools, EncodedTools))
  }

  function ConvertEncodedTools(c: Codec, r: Fields): Outcome<Fields> {
    if EncodedTools !in r then Ok(r)
    else
      var v :- DecodeList(c, r[EncodedTools]);
      Ok(r[Tools := v] - {EncodedTools})
  }

  function ConvertToolChoiceTools(c: Codec, r: Fields): Outcome<Fields> {
    if ToolChoice !in r || !r[ToolChoice].Obj? then Ok(r)
    else
      var t :- ConvertTools(c, r[ToolChoice].fields);
      Ok(r[ToolChoice := Obj(t)])
  }

  function ConvertEncodedToolChoiceTools(c: Codec, r: Fields): Outcome<Fields> {
    if ToolChoice !in r || !r[ToolChoice].Obj? then Ok(r)
    else
      var t :- ConvertEncodedTools(c, r[ToolChoice].fields);
      Ok(r[ToolChoice := Obj(t)])
  }

  function ConvertToolChoice(r: Fields): Outcome<Fields> {
    if ToolChoice !in r || r[ToolChoice].Str? then Ok(r)
    else Ok(r[Key.ToolChoiceObject := r[ToolChoice]] - {ToolChoice})
  }

  function ConvertToolChoiceObject(r: Fields): Outcome<Fields> {
    if Key.ToolChoiceObject !in r then Ok(r)
    else Ok(r[ToolChoice := r[Key.ToolChoiceObject]] - {Key.ToolChoiceObject})
  }

  function ConvertPresence(r: Fields, key: Key, setKey: Key): Outcome<Fields> {
    if key !in r then Ok(r) else Ok(r[setKey := Bool(true)])
  }

  function ConvertEncodedPresence(r: Fields, key: Key, setKey: Key): Outcome<Fields> {
    if setKey !in r then Ok(r)
    else if !r[setKey].Bool? then Err
    else
      var r' := r - {setKey};
      if r[setKey].b && key !in r' then Ok(r'[key := Num(Zero)]) else Ok(r')
  }

  function ConvertTextFormatSchema(c: Codec, r: Fields): Outcome<Fields> {
    if Text !in r || !r[Text].Obj? then Ok(r)
    else
      var t := r[Text].fields;
      if Format !in t || !t[Format].Obj? then Ok(r)
      else
        var f := t[Format].fields;
        if Schema !in f || !f[Schema].Obj? then Ok(r)
        else Ok(r[Text := Obj(t[Format := Obj(EncodeField(c, f, Schema, EncodedSchema))])])
  }

  function ConvertEncodedTextFormatSchema(c: Codec, r: Fields): Outcome<Fields> {
    if Text !in r || !r[Text].Obj? then Ok(r)
    else
      var t := r[Text].fields;
      if Format !in t || !t[Format].Obj? then Ok(r)
      else
        var f := t[Format].fields;
        if EncodedSchema !in f then Ok(r)
        else
          var v :- DecodeMap(c, f[EncodedSchema]);
          Ok(r[Text := Obj(t[Format := Obj(f[Schema := v] - {EncodedSchema})])])
  }

  function ConvertInput(c: Codec, r: Fields): Outcome<Fields> {
    if Input !in r || r[Input].Str? then Ok(r) else Ok(EncodeField(c, r, Input, EncodedInput))
  }

  function ConvertEncodedInput(c: Codec, r: Fields): Outcome<Fields> {
    if EncodedInput !in r then Ok(r)
    else
      var v :- DecodeList(c, r[EncodedInput]);
      Ok(r[Input := v] - {EncodedInput})
  }

  function ToProto(c: Codec): seq<Converter> {
    [ r => ConvertTools(c, r),
      r => ConvertToolChoiceTools(c, r),
      ConvertToolChoice,
      r => ConvertPresence(r, Temperature, IsTemperatureSet),
      r => ConvertPresence(r, TopP, IsTopPSet),
      r => ConvertTextFormatSchema(c, r),
      r => ConvertInput(c, r) ]
  }

  function ToOpenAI(c: Codec): seq<Converter> {
    [ r => ConvertEncodedInput(c, r),
      r => ConvertEncodedTextFormatSchema(c, r),
      r => ConvertEncodedPresence(r, TopP, IsTopPSet),
      r => ConvertEncodedPresence(r, Temperature, IsTemperatureSet),
      ConvertToolChoiceObject,
      r => ConvertEncodedToolChoiceTools(c, r),
      r => ConvertEncodedTools(c, r) ]
  }

  /** Temperature and top_p, the fields with a presence flag. */
  predicate Sampling(k: Key) {
    k == Temperature || k == TopP
  }

  /** What the wire does between the two chains: a temperature or a top_p that is null is dropped, because
      null and zero are the same in a message, and one that is zero may be dropped. */
  ghost predicate Wire(p: Fields, w: Fields) {
    && w.Keys <= p.Keys
    && (forall k :: k in w ==> w[k] == p[k] && !(Sampling(k) && w[k].Null?))
    && (forall k :: k in p && k !in w ==> Sampling(k) && (p[k] == Num(Zero) || p[k].Null?))
  }

  /** The wire as it is for messages without such a null. */
  ghost predicate ZeroWire(p: Fields, w: Fields) {
    && w.Keys <= p.Keys
    && (forall k :: k in w ==> w[k] == p[k])
    && (forall k :: k in p && k !in w ==> Sampling(k) && p[k] == Num(Zero))
  }

  /** The names the converters reserve for themselves are not in the request. */
  ghost predicate Unreserved(r: Fields) {
    && EncodedTools !in r && Key.ToolChoiceObject !in r && IsTemperatureSet !in r && IsTopPSet !in r && EncodedInput !in r
    && (ToolChoice in r && r[ToolChoice].Obj? ==> EncodedTools !in r[ToolChoice].fields)
    && (Text in r && r[Text].Obj? && Format in r[Text].fields && r[Text].fields[Format].Obj?
        ==> EncodedSchema !in r[Text].fields[Format].fields)
  }

  /** A null temperature or top_p as the zero that it becomes. */
  function ZeroedAt(r: Fields, k: Key): Fields {
    if k in r && r[k].Null? then r[k := Num(Zero)] else r
  }

  function Zeroed(r: Fields): Fields {
    ZeroedAt(ZeroedAt(r, Temperature), TopP)
  }

  /** Neither temperature nor top_p is null. */
  predicate NoNull(r: Fields) {
    forall k :: k in [Temperature, TopP] && k in r ==> !r[k].Null?
  }

  lemma ZeroedIff(r: Fields)
    ensures Zeroed(r) == r <==> NoNull(r)
  {
    assert Temperature in [Temperature, TopP] && TopP in [Temperature, TopP];
    if Temperature in r && r[Temperature].Null? {
      assert Zeroed(r)[Temperature] == Num(Zero);
    } else if TopP in r && r[TopP].Null? {
      assert Zeroed(r)[TopP] == Num(Zero);
    }
  }

  lemma WireIsZeroWire(p: Fields, w: Fields)
    requires Wire(p, w)
    ensures ZeroWire(Zeroed(p), w)
  {
  }

  /** The input the reverse chain can decode: text, a list, or null. */
  ghost predicate DecodableInput(r: Fields) {
    Input in r ==> r[Input].Str? || r[Input].Arr? || r[Input].Null?
  }

  lemma ToolsBack(c: Codec, r: Fields)
    requires c.Lawful() && EncodedTools !in r
    ensures ConvertTools(c, r).Ok? && ConvertEncodedTools(c, ConvertTools(c, r).value) == Ok(r)
  {
    if Tools in r && r[Tools].Arr? {
      var p := ConvertTools(c, r).value;
      assert c.decode(c.encode(r[Tools])) == Some(r[Tools]);
      assert p[Tools := r[Tools]] - {EncodedTools} == r;
    }
  }

  lemma ToolChoiceToolsBack(c: Codec, r: Fields)
    requires c.Lawful()
    requires ToolChoice in r && r[ToolChoice].Obj? ==> EncodedTools !in r[ToolChoice].fields
    ensures ConvertToolChoiceTools(c, r).Ok?
    ensures ConvertEncodedToolChoiceTools(c, ConvertToolChoiceTools(c, r).value) == Ok(r)
  {
    if ToolChoice in r && r[ToolChoice].Obj? {
      ToolsBack(c, r[ToolChoice].fields);
      var p := ConvertToolChoiceTools(c, r).value;
      assert p[ToolChoice := r[ToolChoice]] == r;
    }
  }

  lemma ToolChoiceBack(r: Fields)
    requires Key.ToolChoiceObject !in r
    ensures ConvertToolChoice(r).Ok? && ConvertToolChoiceObject(ConvertToolChoice(r).value) == Ok(r)
  {
    if ToolChoice in r && !r[ToolChoice].Str? {
      assert ConvertToolChoice(r).value[ToolChoice := r[ToolChoice]] - {Key.ToolChoiceObject} == r;
    }
  }

  /** A presence flag brings back its field, also when the wire dropped it as zero, and leaves what the
      wire did to the other field alone. */
  lemma PresenceBack(r: Fields, key: Key, setKey: Key, w: Fields)
    requires (key == Temperature && setKey == IsTemperatureSet) || (key == TopP && setKey == IsTopPSet)
    requires setKey !in r
    requires ConvertPresence(r, key, setKey).Ok? && ZeroWire(ConvertPresence(r, key, setKey).value, w)
    ensures ConvertEncodedPresence(w, key, setKey).Ok?
    ensures ZeroWire(r, ConvertEncodedPresence(w, key, setKey).value)
    ensures key in r ==> key in ConvertEncodedPresence(w, key, setKey).value
    ensures w.Keys - {setKey} <= ConvertEncodedPresence(w, key, setKey).value.Keys
  {
  }

  lemma TextFormatSchemaBack(c: Codec, r: Fields, w: Fields)
    requires c.Lawful()
    requires Text in r && r[Text].Obj? && Format in r[Text].fields && r[Text].fields[Format].Obj?
             ==> EncodedSchema !in r[Text].fields[Format].fields
    requires ConvertTextFormatSchema(c, r).Ok? && ZeroWire(ConvertTextFormatSchema(c, r).value, w)
    ensures ConvertEncodedTextFormatSchema(c, w).Ok?
    ensures ZeroWire(r, ConvertEncodedTextFormatSchema(c, w).value)
  {
    if Text in r && r[Text].Obj? && Format in r[Text].fields && r[Text].fields[Format].Obj? {
      var t := r[Text].fields;
      var f := t[Format].fields;
      if Schema in f && f[Schema].Obj? {
        assert w[Text] == ConvertTextFormatSchema(c, r).value[Text];
        assert c.decode(c.encode(f[Schema])) == Some(f[Schema]);
        var e := EncodeField(c, f, Schema, EncodedSchema);
        assert e[Schema := f[Schema]] - {EncodedSchema} == f;
        assert t[Format := Obj(e)][Format := Obj(f)] == t;
      } else {
        assert w[Text] == r[Text];
      }
    } else if Text in r {
      assert w[Text] == r[Text];
    }
  }

  lemma InputBack(c: Codec, r: Fields, w: Fields)
    requires c.Lawful() && EncodedInput !in r
    requires ConvertInput(c, r).Ok? && ZeroWire(ConvertInput(c, r).value, w)
    ensures if DecodableInput(r) then ConvertEncodedInput(c, w).Ok? && ZeroWire(r, ConvertEncodedInput(c, w).value)
            else ConvertEncodedInput(c, w) == Err
  {
    if Input in r && !r[Input].Str? {
      assert w[EncodedInput] == ConvertInput(c, r).value[EncodedInput];
      assert c.decode(c.encode(r[Input])) == Some(r[Input]);
    }
  }

  /** The three converters for tools, forwards and backwards. */
  function EncodeTools(c: Codec, r: Fields): Outcome<Fields> {
    var x1 :- ConvertTools(c, r);
    var x2 :- ConvertToolChoiceTools(c, x1);
    ConvertToolChoice(x2)
  }

  function DecodeTools(c: Codec, r: Fields): Outcome<Fields> {
    var y2 :- ConvertToolChoiceObject(r);
    var y1 :- ConvertEncodedToolChoiceTools(c, y2);
    ConvertEncodedTools(c, y1)
  }

  ghost predicate SameAt(r: Fields, r': Fields, k: Key) {
    (k in r <==> k in r') && (k in r ==> r[k] == r'[k])
  }

  /** Equal in the fields that the other converters read or write, apart from the two they only flag. */
  ghost predicate SameOthers(r: Fields, r': Fields) {
    && SameAt(r, r', Input) && SameAt(r, r', EncodedInput) && SameAt(r, r', Text)
    && SameAt(r, r', IsTemperatureSet) && SameAt(r, r', IsTopPSet)
  }

  lemma EncodeToolsBack(c: Codec, r: Fields)
    requires c.Lawful() && Unreserved(r)
    ensures EncodeTools(c, r).Ok? && DecodeTools(c, EncodeTools(c, r).value) == Ok(r)
    ensures SameOthers(r, EncodeTools(c, r).value)
  {
    ToolsBack(c, r);
    var x1 := ConvertTools(c, r).value;
    ToolChoiceToolsBack(c, x1);
    ToolChoiceBack(ConvertToolChoiceTools(c, x1).value);
  }

  lemma InputUntouched(c: Codec, x: Fields)
    requires ConvertTextFormatSchema(c, WithPresences(x)).Ok?
    ensures var x5 := WithPresences(x);
            var x6 := ConvertTextFormatSchema(c, x5).value;
            && SameAt(x, x5, Input) && SameAt(x, x5, EncodedInput) && SameAt(x, x5, Text)
            && SameAt(x5, x6, Input) && SameAt(x5, x6, EncodedInput)
  {
  }

  /** The other four, on top of what the first three leave. */
  lemma OthersBack(c: Codec, r: Fields, x: Fields, w: Fields)
    requires c.Lawful() && Unreserved(r)
    requires SameOthers(r, x)
    requires var x6 := ConvertTextFormatSchema(c, WithPresences(x)); x6.Ok? && ZeroWire(ConvertInput(c, x6.value).value, w)
    ensures DecodableInput(r) ==>
      var y6 := ConvertEncodedInput(c, w);
      y6.Ok? && var y5 := ConvertEncodedTextFormatSchema(c, y6.value);
      y5.Ok? && var y4 := ConvertEncodedPresence(y5.value, TopP, IsTopPSet);
      y4.Ok? && ConvertEncodedPresence(y4.value, Temperature, IsTemperatureSet) == Ok(x)
    ensures !DecodableInput(r) ==> ConvertEncodedInput(c, w) == Err
  {
    var x5 := WithPresences(x);
    var x6 := ConvertTextFormatSchema(c, x5).value;
    InputUntouched(c, x);
    InputBack(c, x6, w);
    if DecodableInput(r) {
      var y6 := ConvertEncodedInput(c, w).value;
      TextFormatSchemaBack(c, x5, y6);
      PresencesBack(x, ConvertEncodedTextFormatSchema(c, y6).value);
    }
  }

  /** For a wire without nulls. */
  lemma ZeroRoundTrip(c: Codec, r: Fields, w: Fields)
    requires c.Lawful() && Unreserved(r)
    requires Chain(ToProto(c), r).Ok? ==> ZeroWire(Chain(ToProto(c), r).value, w)
    ensures Chain(ToProto(c), r).Ok?
    ensures Chain(ToOpenAI(c), w) == if DecodableInput(r) then Ok(r) else Err
  {
    EncodeToolsBack(c, r);
    ToProtoIs(c, r);
    ToOpenAIIs(c, w);
    OthersBack(c, r, EncodeTools(c, r).value, w);
  }

  /** The round trip of a model response request: for every request that leaves the reserved names
      alone, and whatever the wire drops, the reverse chain fails exactly when the input is neither text,
      a list nor null, and otherwise returns the request with a null temperature or top_p as zero. So it
      returns the request itself if and only if the input is decodable and neither of the two is null. */
  lemma RoundTrip(c: Codec, r: Fields, w: Fields)
    requires c.Lawful() && Unreserved(r)
    requires Chain(ToProto(c), r).Ok? ==> Wire(Chain(ToProto(c), r).value, w)
    ensures Chain(ToProto(c), r).Ok?
    ensures Chain(ToOpenAI(c), w) == if DecodableInput(r) then Ok(Zeroed(r)) else Err
    ensures Chain(ToOpenAI(c), w) == Ok(r) <==> DecodableInput(r) && NoNull(r)
  {
    ForwardOk(c, r);
    ForwardZeroed(c, r);
    WireIsZeroWire(Chain(ToProto(c), r).value, w);
    ZeroRoundTrip(c, Zeroed(r), w);
    ZeroedIff(r);
  }

  lemma ForwardOk(c: Codec, r: Fields)
    requires c.Lawful() && Unreserved(r)
    ensures Chain(ToProto(c), r).Ok?
  {
    EncodeToolsBack(c, r);
    ToProtoIs(c, r);
  }

  /** The forward chain looks at whether temperature and top_p are there, not at what they are. */
  lemma ForwardZeroed(c: Codec, r: Fields)
    requires Chain(ToProto(c), r).Ok?
    ensures Chain(ToProto(c), Zeroed(r)) == Ok(Zeroed(Chain(ToProto(c), r).value))
  {
    ForwardIgnores(c, r, Temperature);
    ForwardIgnores(c, ZeroedAt(r, Temperature), TopP);
  }

  lemma ForwardIgnores(c: Codec, r: Fields, k: Key)
    requires Sampling(k) && Chain(ToProto(c), r).Ok?
    ensures Chain(ToProto(c), ZeroedAt(r, k)) == Ok(ZeroedAt(Chain(ToProto(c), r).value, k))
  {
    ToProtoIs(c, r);
    ToProtoIs(c, ZeroedAt(r, k));
    var x3 := EncodeTools(c, r).value;
    ToolsIgnore(c, r, k);
    PresencesIgnore(x3, k);
    FormatIgnores(c, WithPresences(x3), k);
  }

  lemma ToolsIgnore(c: Codec, r: Fields, k: Key)
    requires Sampling(k) && EncodeTools(c, r).Ok?
    ensures EncodeTools(c, ZeroedAt(r, k)) == Ok(ZeroedAt(EncodeTools(c, r).value, k))
  {
    var x1 := ConvertTools(c, r).value;
    ListIgnores(c, r, k);
    var x2 := ConvertToolChoiceTools(c, x1).value;
    ChoiceToolsIgnore(c, x1, k);
    ChoiceIgnores(x2, k);
  }

  lemma ListIgnores(c: Codec, r: Fields, k: Key)
    requires Sampling(k)
    ensures ConvertTools(c, r).Ok? && ConvertTools(c, ZeroedAt(r, k)) == Ok(ZeroedAt(ConvertTools(c, r).value, k))
  {
    assert ConvertTools(c, ZeroedAt(r, k)).value == ZeroedAt(ConvertTools(c, r).value, k);
  }

  lemma ChoiceToolsIgnore(c: Codec, r: Fields, k: Key)
    requires Sampling(k)
    ensures var x := ConvertToolChoiceTools(c, r); x.Ok? && ConvertToolChoiceTools(c, ZeroedAt(r, k)) == Ok(ZeroedAt(x.value, k))
  {
    assert ConvertToolChoiceTools(c, ZeroedAt(r, k)).value == ZeroedAt(ConvertToolChoiceTools(c, r).value, k);
  }

  lemma ChoiceIgnores(r: Fields, k: Key)
    requires Sampling(k)
    ensures ConvertToolChoice(r).Ok? && ConvertToolChoice(ZeroedAt(r, k)) == Ok(ZeroedAt(ConvertToolChoice(r).value, k))
  {
    assert ConvertToolChoice(ZeroedAt(r, k)).value == ZeroedAt(ConvertToolChoice(r).value, k);
  }

  lemma PresencesIgnore(r: Fields, k: Key)
    requires Sampling(k)
    ensures WithPresences(ZeroedAt(r, k)) == ZeroedAt(WithPresences(r), k)
  {
  }

  lemma FormatIgnores(c: Codec, r: Fields, k: Key)
    requires Sampling(k)
    ensures var x := ConvertTextFormatSchema(c, r);
            x.Ok? && ConvertTextFormatSchema(c, ZeroedAt(r, k)) == Ok(ZeroedAt(x.value, k))
            && ConvertInput(c, x.value).Ok? && ConvertInput(c, ZeroedAt(x.value, k)) == Ok(ZeroedAt(ConvertInput(c, x.value).value, k))
  {
    var x := ConvertTextFormatSchema(c, r).value;
    assert ConvertTextFormatSchema(c, ZeroedAt(r, k)).value == ZeroedAt(x, k);
    assert ConvertInput(c, ZeroedAt(x, k)).value == ZeroedAt(ConvertInput(c, x).value, k);
  }

  /** A null temperature is flagged as present, the wire drops it, and it comes back as zero. */
  lemma NullBecomesZero(c: Codec)
    requires c.Lawful()
    ensures var r: Fields := map[Temperature := Null];
            var w: Fields := map[IsTemperatureSet := Bool(true)];
            && Unreserved(r) && DecodableInput(r)
            && Chain(ToProto(c), r).Ok? && Wire(Chain(ToProto(c), r).value, w)
            && Chain(ToOpenAI(c), w) == Ok(map[Temperature := Num(Zero)])
  {
    var r: Fields := map[Temperature := Null];
    var w: Fields := map[IsTemperatureSet := Bool(true)];
    ToProtoIs(c, r);
    assert EncodeTools(c, r) == Ok(r);
    assert Chain(ToProto(c), r) == Ok(r[IsTemperatureSet := Bool(true)]);
    assert Zeroed(r) == map[Temperature := Num(Zero)];
    RoundTrip(c, r, w);
  }

  /** After both flags are taken back nothing the wire dropped is missing; a null has become zero. */
  lemma BothPresencesBack(r: Fields, w: Fields)
    requires IsTemperatureSet !in r && IsTopPSet !in r
    requires Wire(WithPresences(r), w)
    ensures ConvertEncodedPresence(w, TopP, IsTopPSet).Ok?
    ensures ConvertEncodedPresence(ConvertEncodedPresence(w, TopP, IsTopPSet).value, Temperature, IsTemperatureSet) == Ok(Zeroed(r))
  {
    PresencesIgnore(r, Temperature);
    PresencesIgnore(ZeroedAt(r, Temperature), TopP);
    WireIsZeroWire(WithPresences(r), w);
    PresencesBack(Zeroed(r), w);
  }

  lemma PresencesBack(r: Fields, w: Fields)
    requires IsTemperatureSet !in r && IsTopPSet !in r
    requires ZeroWire(WithPresences(r), w)
    ensures ConvertEncodedPresence(w, TopP, IsTopPSet).Ok?
    ensures ConvertEncodedPresence(ConvertEncodedPresence(w, TopP, IsTopPSet).value, Temperature, IsTemperatureSet) == Ok(r)
  {
    var x := ConvertPresence(r, Temperature, IsTemperatureSet).value;
    PresenceBack(x, TopP, IsTopPSet, w);
    var y := ConvertEncodedPresence(w, TopP, IsTopPSet).value;
    PresenceBack(r, Temperature, IsTemperatureSet, y);
    var z := ConvertEncodedPresence(y, Temperature, IsTemperatureSet).value;
    assert z == r;
  }

  function WithPresences(r: Fields): Fields {
    ConvertPresence(ConvertPresence(r, Temperature, IsTemperatureSet).value, TopP, IsTopPSet).value
  }

  lemma ToProtoIs(c: Codec, r: Fields)
    ensures Chain(ToProto(c), r) ==
      var x3 :- EncodeTools(c, r);
      var x6 :- ConvertTextFormatSchema(c, WithPresences(x3));
      ConvertInput(c, x6)
  {
    Unchain(ToProto(c), r);
  }

  lemma ToOpenAIIs(c: Codec, w: Fields)
    ensures Chain(ToOpenAI(c), w) ==
      var y6 :- ConvertEncodedInput(c, w);
      var y5 :- ConvertEncodedTextFormatSchema(c, y6);
      var y4 :- ConvertEncodedPresence(y5, TopP, IsTopPSet);
      var y3 :- ConvertEncodedPresence(y4, Temperature, IsTemperatureSet);
      DecodeTools(c, y3)
  {
    Unchain(ToOpenAI(c), w);
  }

  /** The order matters: if the reverse chain decoded the tools of a tool choice before it renamed
      `tool_choice_object` back, they would stay encoded. */
  lemma OrderMatters(c: Codec, r: Fields, tools: seq<Value>)
    requires r == map[ToolChoice := Obj(map[Tools := Arr(tools)])]
    ensures var p := EncodeTools(c, r);
            && p.Ok?
            && ConvertEncodedToolChoiceTools(c, p.value) == Ok(p.value)
            && ConvertToolChoiceObject(p.value) == Ok(map[ToolChoice := Obj(map[EncodedTools := Str(c.encode(Arr(tools)))])])
  {
    var t: Fields := map[Tools := Arr(tools)];
    var encoded: Fields := map[EncodedTools := Str(c.encode(Arr(tools)))];
    assert EncodeField(c, t, Tools, EncodedTools) == encoded;
    assert ConvertTools(c, r) == Ok(r);
    assert ConvertToolChoiceTools(c, r).value == map[ToolChoice := Obj(encoded)];
    var p := EncodeTools(c, r).value;
    assert p == map[Key.ToolChoiceObject := Obj(encoded)];
    assert p[ToolChoice := Obj(encoded)] - {Key.ToolChoiceObject} == map[ToolChoice := Obj(encoded)];
  }
}
