/**
  JSONField: a text column that stores a JSON-serialised value, compressed with zlib and base64
  (behind the prefix 'zlib;;') when the field asks for compression and the JSON text is at least
  64 characters long. JSON, zlib and base64 are oracles bundled in `Codec`; the laws the
  round-trip relies on are stated in `Lawful`.
*/
module JsonField {
  import opened Wrappers
  import opened Text

  /** The Python values the field handles; `Opaque` is an object json.dumps cannot serialise. */
  datatype Value =
    | Null
    | Bool(b: bool)
    | Int(i: int)
    | Str(s: string)
    | List(items: seq<Value>)
    | Dict(entries: map<string, Value>)
    | Opaque(tag: string)

  /** The Python types a field may require with `json_type`. */
  datatype PyType = DictType | ListType | StrType | IntType | BoolType

  predicate IsInstance(v: Value, t: PyType) {
    match t
    case DictType => v.Dict?
    case ListType => v.List?
    case StrType => v.Str?
    case IntType => v.Int? || v.Bool?
    case BoolType => v.Bool?
  }

  /** json.dumps / json.loads (None: TypeError / ValueError) and the zlib-then-base64 packing. */
  datatype Codec = Codec(
    dumps: Value -> Option<string>,
    loads: string -> Option<Value>,
    pack: string -> string,
    unpack: string -> Option<string>)

  /** JSON text round-trips and never starts with the compression prefix; packing round-trips. */
  ghost predicate Lawful(c: Codec) {
    && (forall v, t :: c.dumps(v) == Some(t) ==> c.loads(t) == Some(v) && !StartsWith(t, CompressedPrefix))
    && (forall t :: c.unpack(c.pack(t)) == Some(t))
  }

  datatype Field = Field(jsonType: Option<PyType>, compress: bool)

  const CompressionThreshold: nat := 64
  const CompressedPrefix: string := "zlib;;"

  /** ValidationError on load, TypeError / ValueError on save, and a failed decompression. */
  datatype FieldError = ValidationError | TypeError | ValueError | DecompressError

  predicate TypeOk(f: Field, v: Value) {
    f.jsonType == None || IsInstance(v, f.jsonType.value)
  }

  /** JSONField.to_python: decompress a prefixed string when compressing, parse JSON text when it
      parses, keep it otherwise; then enforce json_type. */
  function ToPython(f: Field, c: Codec, v: Value): (r: Result<Value, FieldError>)
    ensures !v.Str? ==> r == (if TypeOk(f, v) then Success(v) else Failure(ValidationError))
    ensures v.Str? && !(f.compress && StartsWith(v.s, CompressedPrefix)) && c.loads(v.s) == None ==>
      r == (if TypeOk(f, v) then Success(v) else Failure(ValidationError))
    ensures v.Str? && !(f.compress && StartsWith(v.s, CompressedPrefix)) && c.loads(v.s).Some? ==>
      r == (if TypeOk(f, c.loads(v.s).value) then Success(c.loads(v.s).value) else Failure(ValidationError))
    ensures v.Str? && f.compress && StartsWith(v.s, CompressedPrefix) ==>
      match c.unpack(v.s[|CompressedPrefix|..])
      case None => r == Failure(DecompressError)
      case Some(t) =>
        var x := if c.loads(t).Some? then c.loads(t).value else Str(t);
        r == (if TypeOk(f, x) then Success(x) else Failure(ValidationError))
    ensures r.Success? ==> TypeOk(f, r.value)
    ensures r == Failure(DecompressError) ==> v.Str? && f.compress && StartsWith(v.s, CompressedPrefix)
  {
    var loaded: Result<Value, FieldError> :=
      if v.Str? then
        var text := if f.compress && StartsWith(v.s, CompressedPrefix) then c.unpack(v.s[|CompressedPrefix|..]) else Some(v.s);
        match text {
          case None => Failure(DecompressError)
          case Some(t) => Success(match c.loads(t) { case Some(x) => x case None => Str(t) })
        }
      else Success(v);
    match loaded {
      case Failure(e) => Failure(e)
      case Success(x) => if TypeOk(f, x) then Success(x) else Failure(ValidationError)
    }
  }

  /** JSONField.get_db_prep_save: enforce json_type, serialise, and compress long text. */
  function GetDbPrepSave(f: Field, c: Codec, v: Value): (r: Result<string, FieldError>)
    ensures !TypeOk(f, v) ==> r == Failure(TypeError)
    ensures TypeOk(f, v) && c.dumps(v) == None ==> r == Failure(ValueError)
    ensures r.Success? ==> c.dumps(v).Some?
    ensures r.Success? && f.compress && |c.dumps(v).value| >= CompressionThreshold ==>
      r.value == CompressedPrefix + c.pack(c.dumps(v).value)
    ensures r.Success? && !(f.compress && |c.dumps(v).value| >= CompressionThreshold) ==>
      r.value == c.dumps(v).value
  {
    if !TypeOk(f, v) then Failure(TypeError)
    else match c.dumps(v) {
      case None => Failure(ValueError)
      case Some(text) =>
        if f.compress && |text| >= CompressionThreshold then Success(CompressedPrefix + c.pack(text))
        else Success(text)
    }
  }

  /** A saved value carries the prefix exactly when it was compressed. */
  lemma CompressedIffLong(f: Field, c: Codec, v: Value)
    requires Lawful(c)
    requires GetDbPrepSave(f, c, v).Success?
    ensures StartsWith(GetDbPrepSave(f, c, v).value, CompressedPrefix)
      <==> f.compress && |c.dumps(v).value| >= CompressionThreshold
  {
    var text := c.dumps(v).value;
    var s := GetDbPrepSave(f, c, v).value;
    if f.compress && |text| >= CompressionThreshold {
      assert s[..|CompressedPrefix|] == CompressedPrefix;
    }
  }

  /** Saving then loading gives back the saved value. */
  lemma SaveLoadRoundTrip(f: Field, c: Codec, v: Value)
    requires Lawful(c)
    requires GetDbPrepSave(f, c, v).Success?
    ensures ToPython(f, c, Str(GetDbPrepSave(f, c, v).value)) == Success(v)
  {
    var text := c.dumps(v).value;
    var s := GetDbPrepSave(f, c, v).value;
    assert c.loads(text) == Some(v);
    if f.compress && |text| >= CompressionThreshold {
      assert s[..|CompressedPrefix|] == CompressedPrefix;
      assert s[|CompressedPrefix|..] == c.pack(text);
      assert c.unpack(c.pack(text)) == Some(text);
    } else {
      assert s == text;
      assert !StartsWith(text, CompressedPrefix);
    }
  }

  /** The form field's errors. */
  datatype FormError = Required | InvalidJson

  /** JSONFormField.clean: an empty optional field is None before anything else. Otherwise
      CharField.clean strips the surrounding whitespace, turns None into the empty text and
      rejects empty text in a required field; the stripped text is then kept only when it parses
      as JSON ("Enter valid JSON"). */
  function FormClean(value: Option<string>, required: bool, c: Codec): (r: Result<Option<string>, FormError>)
    ensures (value == None || value == Some("")) && !required ==> r == Success(None)
    ensures required && (value == None || Strip(value.value) == "") ==> r == Failure(Required)
    ensures value.Some? && value.value != "" && !(required && Strip(value.value) == "") ==>
      r == (if c.loads(Strip(value.value)) == None then Failure(InvalidJson) else Success(Some(Strip(value.value))))
    ensures r.Success? && r.value.Some? ==> Strip(r.value.value) == r.value.value && c.loads(r.value.value).Some?
  {
    if (value == None || value == Some("")) && !required then Success(None)
    else
      var s := Strip(value.GetOr(""));
      if s == "" && required then Failure(Required)
      else if c.loads(s) == None then Failure(InvalidJson)
      else
        StripIdempotent(value.GetOr(""));
        Success(Some(s))
  }
}
