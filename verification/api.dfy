/**
 The request converters of common/pkg/api as the code runs them: each one inserts and deletes keys of
 one request body in place, and a chain runs them one after the other on the same body. Every method is
 proved to do what its function in modules Responses and Chat says, so that their round trips hold here.
 */
module Api {
  import opened Common
  import opened Json
  import R = Responses
  import C = Chat

  /** The body after a converter, or how the converter failed. */
  function Ends(res: Outcome<()>, r: Fields): Outcome<Fields> {
    if res.Ok? then Ok(r) else res.PropagateFailure()
  }

  class Body {
    const c: Codec
    var r: Fields

    constructor (c: Codec, r: Fields)
      ensures this.c == c && this.r == r
    {
      this.c, this.r := c, r;
    }

    // -------------------------------------------------------------------------------------------
    // Model responses.

    method ConvertTools()
      modifies this
      ensures Ok(r) == R.ConvertTools(c, old(r))
    {
      if Tools in r && r[Tools].Arr? {
        r := r[EncodedTools := Str(c.encode(r[Tools]))];
        r := r - {Tools};
      }
    }

    method ConvertEncodedTools() returns (res: Outcome<()>)
      modifies this
      ensures Ends(res, r) == R.ConvertEncodedTools(c, old(r))
    {
      if EncodedTools !in r {
        return Ok(());
      }
      var tools :- DecodeList(c, r[EncodedTools]);
      r := r[Tools := tools];
      r := r - {EncodedTools};
      return Ok(());
    }

    method ConvertToolChoiceTools()
      modifies this
      ensures Ok(r) == R.ConvertToolChoiceTools(c, old(r))
    {
      if ToolChoice in r && r[ToolChoice].Obj? {
        var t := r[ToolChoice].fields;
        if Tools in t && t[Tools].Arr? {
          t := t[EncodedTools := Str(c.encode(t[Tools]))];
          t := t - {Tools};
        }
        r := r[ToolChoice := Obj(t)];
      }
    }

    method ConvertEncodedToolChoiceTools() returns (res: Outcome<()>)
      modifies this
      ensures Ends(res, r) == R.ConvertEncodedToolChoiceTools(c, old(r))
    {
      if ToolChoice !in r || !r[ToolChoice].Obj? {
        return Ok(());
      }
      var t := r[ToolChoice].fields;
      if EncodedTools in t {
        var tools :- DecodeList(c, t[EncodedTools]);
        t := t[Tools := tools];
        t := t - {EncodedTools};
      }
      r := r[ToolChoice := Obj(t)];
      return Ok(());
    }

    method ConvertTextFormatSchema()
      modifies this
      ensures Ok(r) == R.ConvertTextFormatSchema(c, old(r))
    {
      if Text !in r || !r[Text].Obj? {
        return;
      }
      var t := r[Text].fields;
      if Format !in t || !t[Format].Obj? {
        return;
      }
      var f := t[Format].fields;
      if Schema in f && f[Schema].Obj? {
        f := f[EncodedSchema := Str(c.encode(f[Schema]))];
        f := f - {Schema};
        r := r[Text := Obj(t[Format := Obj(f)])];
      }
    }

    method ConvertEncodedTextFormatSchema() returns (res: Outcome<()>)
      modifies this
      ensures Ends(res, r) == R.ConvertEncodedTextFormatSchema(c, old(r))
    {
      if Text !in r || !r[Text].Obj? {
        return Ok(());
      }
      var t := r[Text].fields;
      if Format !in t || !t[Format].Obj? {
        return Ok(());
      }
      var f := t[Format].fields;
      if EncodedSchema in f {
        var schema :- DecodeMap(c, f[EncodedSchema]);
        f := f[Schema := schema];
        f := f - {EncodedSchema};
        r := r[Text := Obj(t[Format := Obj(f)])];
      }
      return Ok(());
    }

    method ConvertInput()
      modifies this
      ensures Ok(r) == R.ConvertInput(c, old(r))
    {
      if Input in r && !r[Input].Str? {
        r := r[EncodedInput := Str(c.encode(r[Input]))];
        r := r - {Input};
      }
    }

    method ConvertEncodedInput() returns (res: Outcome<()>)
      modifies this
      ensures Ends(res, r) == R.ConvertEncodedInput(c, old(r))
    {
      if EncodedInput !in r {
        return Ok(());
      }
      var input :- DecodeList(c, r[EncodedInput]);
      r := r[Input := input];
      r := r - {EncodedInput};
      return Ok(());
    }

    // -------------------------------------------------------------------------------------------
    // Shared.

    method ConvertToolChoice()
      modifies this
      ensures Ok(r) == R.ConvertToolChoice(old(r))
    {
      if ToolChoice in r && !r[ToolChoice].Str? {
        r := r[Key.ToolChoiceObject := r[ToolChoice]];
        r := r - {ToolChoice};
      }
    }

    method ConvertToolChoiceObject()
      modifies this
      ensures Ok(r) == R.ConvertToolChoiceObject(old(r))
    {
      if Key.ToolChoiceObject in r {
        r := r[ToolChoice := r[Key.ToolChoiceObject]];
        r := r - {Key.ToolChoiceObject};
      }
    }

    method ConvertNonProtoDefaultValue(key: Key, setKey: Key)
      modifies this
      ensures Ok(r) == R.ConvertPresence(old(r), key, setKey)
    {
      if key in r {
        r := r[setKey := Bool(true)];
      }
    }

    method ConvertEncodedNonProtoDefaultValue(key: Key, setKey: Key) returns (res: Outcome<()>)
      modifies this
      ensures Ends(res, r) == R.ConvertEncodedPresence(old(r), key, setKey)
    {
      if setKey !in r {
        return Ok(());
      }
      if !r[setKey].Bool? {
        return Err;
      }
      TakeFlag(key, setKey);
      return Ok(());
    }

    method TakeFlag(key: Key, setKey: Key)
      requires setKey in r && r[setKey].Bool?
      modifies this
      ensures Ok(r) == R.ConvertEncodedPresence(old(r), key, setKey)
    {
      var isSet := r[setKey].b;
      r := r - {setKey};
      if isSet {
        SetZero(key);
      }
    }

    method SetZero(key: Key)
      modifies this
      ensures r == if key in old(r) then old(r) else old(r)[key := Num(Zero)]
    {
      if key !in r {
        r := r[key := Num(Zero)];
      }
    }

    // -------------------------------------------------------------------------------------------
    // Chat completions.

    /** The converters that go through a list of the body. */
    method ForEachIn(key: Key, f: Value -> Outcome<Value>) returns (res: Outcome<()>)
      modifies this
      ensures Ends(res, r) == C.AtList(old(r), key, f)
    {
      if key !in r {
        return Ok(());
      }
      if !r[key].Arr? {
        return Panic;
      }
      var elems :- C.ConvertElements(f, r[key].elems);
      r := r[key := Arr(elems)];
      return Ok(());
    }

    method ConvertChatTemplateKwargs() returns (res: Outcome<()>)
      modifies this
      ensures Ends(res, r) == C.ConvertChatTemplateKwargs(c, old(r))
    {
      if ChatTemplateKwargs !in r {
        return Ok(());
      }
      if !r[ChatTemplateKwargs].Obj? {
        return Err;
      }
      r := r[EncodedChatTemplateKwargs := Str(c.encode(r[ChatTemplateKwargs]))];
      r := r - {ChatTemplateKwargs};
      return Ok(());
    }

    method ConvertEncodedChatTemplateKwargs() returns (res: Outcome<()>)
      modifies this
      ensures Ends(res, r) == C.ConvertEncodedChatTemplateKwargs(c, old(r))
    {
      if EncodedChatTemplateKwargs !in r {
        return Ok(());
      }
      var kw :- DecodeMap(c, r[EncodedChatTemplateKwargs]);
      r := r[ChatTemplateKwargs := kw];
      r := r - {EncodedChatTemplateKwargs};
      return Ok(());
    }

    method ConvertResponseFormat() returns (res: Outcome<()>)
      modifies this
      ensures Ends(res, r) == C.ConvertResponseFormat(c, old(r))
    {
      var found :- C.JsonSchemaOf(r);
      if found.None? {
        return Ok(());
      }
      var js := found.value;
      if Schema !in js || !js[Schema].Obj? {
        return Err;
      }
      js := js[EncodedSchema := Str(c.encode(js[Schema]))];
      js := js - {Schema};
      r := r[Key.ResponseFormat := Obj(r[Key.ResponseFormat].fields[JsonSchema := Obj(js)])];
      return Ok(());
    }

    method ConvertEncodedResponseFormat() returns (res: Outcome<()>)
      modifies this
      ensures Ends(res, r) == C.ConvertEncodedResponseFormat(c, old(r))
    {
      var found :- C.JsonSchemaOf(r);
      if found.None? {
        return Ok(());
      }
      var js := found.value;
      if EncodedSchema !in js || !js[EncodedSchema].Str? {
        return Err;
      }
      var schema :- DecodeMap(c, js[EncodedSchema]);
      js := js[Schema := schema];
      js := js - {EncodedSchema};
      r := r[Key.ResponseFormat := Obj(r[Key.ResponseFormat].fields[JsonSchema := Obj(js)])];
      return Ok(());
    }

    // -------------------------------------------------------------------------------------------
    // The chains.

    method ConvertCreateModelResponseRequestToProto() returns (res: Outcome<()>)
      modifies this
      ensures Ends(res, r) == Chain(R.ToProto(c), old(r))
    {
      Unchain(R.ToProto(c), r);
      ConvertTools();
      ConvertToolChoiceTools();
      ConvertToolChoice();
      ConvertNonProtoDefaultValue(Temperature, IsTemperatureSet);
      ConvertNonProtoDefaultValue(TopP, IsTopPSet);
      ConvertTextFormatSchema();
      ConvertInput();
      return Ok(());
    }

    method ConvertCreateModelResponseRequestToOpenAI() returns (res: Outcome<()>)
      modifies this
      ensures Ends(res, r) == Chain(R.ToOpenAI(c), old(r))
    {
      Unchain(R.ToOpenAI(c), r);
      var _ :- ConvertEncodedInput();
      var _ :- ConvertEncodedTextFormatSchema();
      var _ :- ConvertEncodedNonProtoDefaultValue(TopP, IsTopPSet);
      var _ :- ConvertEncodedNonProtoDefaultValue(Temperature, IsTemperatureSet);
      ConvertToolChoiceObject();
      var _ :- ConvertEncodedToolChoiceTools();
      res := ConvertEncodedTools();
    }

    method ConvertCreateChatCompletionRequestToProto() returns (res: Outcome<()>)
      modifies this
      ensures Ends(res, r) == Chain(C.ToProto(c), old(r))
    {
      Unchain(C.ToProto(c), r);
      ConvertToolChoice();
      var _ :- ForEachIn(Tools, v => C.ConvertTool(c, v));
      var _ :- ConvertChatTemplateKwargs();
      ConvertNonProtoDefaultValue(Temperature, IsTemperatureSet);
      ConvertNonProtoDefaultValue(TopP, IsTopPSet);
      var _ :- ConvertResponseFormat();
      res := ForEachIn(Messages, C.ContentToArray);
    }

    method ConvertCreateChatCompletionRequestToOpenAI(needStringFormat: bool) returns (res: Outcome<()>)
      modifies this
      ensures Ends(res, r) == Chain(C.ToOpenAI(c, needStringFormat), old(r))
    {
      Unchain(C.ToOpenAI(c, needStringFormat), r);
      if needStringFormat {
        var _ :- ForEachIn(Messages, C.ContentToString);
      }
      var _ :- ConvertEncodedResponseFormat();
      var _ :- ConvertEncodedNonProtoDefaultValue(TopP, IsTopPSet);
      var _ :- ConvertEncodedNonProtoDefaultValue(Temperature, IsTemperatureSet);
      var _ :- ConvertEncodedChatTemplateKwargs();
      var _ :- ForEachIn(Tools, v => C.ConvertEncodedTool(c, v));
      ConvertToolChoiceObject();
      return Ok(());
    }
  }
}
