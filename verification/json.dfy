/** JSON values as the request converters of common/pkg/api see them, and the codec they use. */
module Json {
  import opened Common

  /** The field names the converters read or write, and any other name. */
  datatype Key =
    | Tools | EncodedTools | ToolChoice | ToolChoiceObject
    | Temperature | IsTemperatureSet | TopP | IsTopPSet
    | Input | EncodedInput | Text | Format | Schema | EncodedSchema
    | Function | Parameters | EncodedParameters
    | ChatTemplateKwargs | EncodedChatTemplateKwargs
    | ResponseFormat | Type | JsonSchema
    | Messages | Content
    | Other(name: string)

  type Fields = map<Key, Value>

  /** Numbers matter only as zero or not: any other number is its canonical text. */
  datatype Number = Zero | NonZero(text: string)

  datatype Value = Null | Bool(b: bool) | Num(n: Number) | Str(s: string) | Arr(elems: seq<Value>) | Obj(fields: Fields)

  /** Base64 over JSON text, as a pair of functions. */
  datatype Codec = Codec(encode: Value -> string, decode: string -> Option<Value>) {
    ghost predicate Lawful() {
      forall v :: decode(encode(v)) == Some(v)
    }
  }

  /** Err: the converter returns an error. Panic: a type assertion on the wrong type of value. */
  datatype Outcome<+T> = Ok(value: T) | Err | Panic {
    predicate IsFailure() { !Ok? }
    function PropagateFailure<U>(): Outcome<U>
      requires IsFailure()
    {
      if Err? then Outcome<U>.Err else Outcome<U>.Panic
    }
    function Extract(): T
      requires Ok?
    {
      value
    }
  }

  /** Decoding into a list or into a map; JSON null decodes into either. */
  function DecodeList(c: Codec, v: Value): Outcome<Value> {
    if !v.Str? then Panic
    else match c.decode(v.s)
      case Some(Arr(elems)) => Ok(Arr(elems))
      case Some(Null) => Ok(Null)
      case _ => Err
  }

  function DecodeMap(c: Codec, v: Value): Outcome<Value> {
    if !v.Str? then Panic
    else match c.decode(v.s)
      case Some(Obj(fields)) => Ok(Obj(fields))
      case Some(Null) => Ok(Null)
      case _ => Err
  }

  /** Replaces a field by its encoding under another name. */
  function EncodeField(c: Codec, r: Fields, plain: Key, encoded: Key): Fields
    requires plain in r
  {
    r[encoded := Str(c.encode(r[plain]))] - {plain}
  }

  type Converter = Fields -> Outcome<Fields>

  /** The chain of converters: the first failure ends it. */
  function Chain(fs: seq<Converter>, r: Fields): Outcome<Fields> {
    if fs == [] then Ok(r)
    else
      var r' :- fs[0](r);
      Chain(fs[1..], r')
  }

  method ApplyConvertFuncs(r: Fields, fs: seq<Converter>) returns (res: Outcome<Fields>)
    ensures res == Chain(fs, r)
  {
    var body := r;
    for i := 0 to |fs|
      invariant Chain(fs, r) == Chain(fs[i..], body)
    {
      var out := fs[i](body);
      assert fs[i..][1..] == fs[i + 1..];
      if out.IsFailure() {
        return out;
      }
      body := out.value;
    }
    return Ok(body);
  }

  /** A chain of seven converters, one after the other. */
  lemma Unchain(fs: seq<Converter>, r: Fields)
    requires |fs| == 7
    ensures Chain(fs, r) ==
      var x1 :- fs[0](r);
      var x2 :- fs[1](x1);
      var x3 :- fs[2](x2);
      var x4 :- fs[3](x3);
      var x5 :- fs[4](x4);
      var x6 :- fs[5](x5);
      fs[6](x6)
  {
    ChainFrom(fs, 0);
    ChainFrom(fs, 1);
    ChainFrom(fs, 2);
    ChainFrom(fs, 3);
    ChainFrom(fs, 4);
    ChainFrom(fs, 5);
    ChainFrom(fs, 6);
    assert fs[0..] == fs && fs[7..] == [];
  }

  lemma ChainFrom(fs: seq<Converter>, i: nat)
    requires i < |fs|
    ensures forall r :: Chain(fs[i..], r) == var r' :- fs[i](r); Chain(fs[i + 1..], r')
  {
    assert fs[i..][1..] == fs[i + 1..];
  }
}
