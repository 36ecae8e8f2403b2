/** JSON values as the server sees them once System.Text.Json has read a
    document. Reading text into a value and writing a value back out are not
    modelled here: they are supplied to the protocol engine and the tool
    dispatcher as functions. */
module Json {

  /** A JSON number: a plain integer literal (no fraction, no exponent), or
      any other literal, kept as its text. */
  datatype Number = IntLiteral(i: int) | OtherLiteral(text: string)

  /** A JSON value. An object is a map from member names to values: how the
      reader settles a repeated member name is left to the reader. */
  datatype Json =
    | JNull
    | JBool(b: bool)
    | JNumber(n: Number)
    | JString(s: string)
    | JArray(items: seq<Json>)
    | JObject(fields: map<string, Json>)

  /** The name of the `JsonValueKind` of a value, as .NET spells it. */
  function KindName(j: Json): (k: string)
    ensures k == "String" <==> j.JString?
    ensures k == "Null" <==> j.JNull?
  {
    match j
    case JNull => "Null"
    case JBool(b) => if b then "True" else "False"
    case JNumber(_) => "Number"
    case JString(_) => "String"
    case JArray(_) => "Array"
    case JObject(_) => "Object"
  }

}
