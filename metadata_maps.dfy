/**
 * SEISPP Metadata: a header of typed name/value attributes.  A get_* call on
 * a name that is not present under that type throws MetadataGetError; put
 * replaces any previous value of the name.
 */
module MetadataMaps {
  import opened Failures

  /** The attribute types of the MDtype enumeration. */
  datatype MDType = RealType | IntType | StringType | BoolType | InvalidType

  datatype MDValue =
    | RealValue(r: real)
    | IntValue(i: int)
    | StringValue(s: string)
    | BoolValue(b: bool)

  type Attributes = map<string, MDValue>

  const MetadataGetError: string := "MetadataGetError: attribute not found"

  function GetReal(md: Attributes, key: string): (r: Result<real>)
    ensures r.Ok? <==> key in md && md[key].RealValue?
    ensures r.Ok? ==> md[key] == RealValue(r.value)
  {
    if key in md && md[key].RealValue? then Ok(md[key].r) else Throw(MetadataGetError)
  }

  function GetInt(md: Attributes, key: string): (r: Result<int>)
    ensures r.Ok? <==> key in md && md[key].IntValue?
    ensures r.Ok? ==> md[key] == IntValue(r.value)
  {
    if key in md && md[key].IntValue? then Ok(md[key].i) else Throw(MetadataGetError)
  }

  function GetString(md: Attributes, key: string): (r: Result<string>)
    ensures r.Ok? <==> key in md && md[key].StringValue?
    ensures r.Ok? ==> md[key] == StringValue(r.value)
  {
    if key in md && md[key].StringValue? then Ok(md[key].s) else Throw(MetadataGetError)
  }

  function GetBool(md: Attributes, key: string): (r: Result<bool>)
    ensures r.Ok? <==> key in md && md[key].BoolValue?
    ensures r.Ok? ==> md[key] == BoolValue(r.value)
  {
    if key in md && md[key].BoolValue? then Ok(md[key].b) else Throw(MetadataGetError)
  }

  /** The type a stored value reports. */
  function TypeOf(v: MDValue): MDType
  {
    match v
    case RealValue(_) => RealType
    case IntValue(_) => IntType
    case StringValue(_) => StringType
    case BoolValue(_) => BoolType
  }
}
