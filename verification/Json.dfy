/** Decoded model replies, as far as the agents look at them. */
module Json {
  import opened Prelude

  datatype JsonValue = JString(text: string) | JOther

  datatype JsonDoc = Malformed | NotAnObject | Object(fields: map<string, JsonValue>) {
    /** data.get(name), which an ill-formed reply does not have. */
    function Field(name: string): Option<JsonValue> {
      if Object? && name in fields then Some(fields[name]) else None
    }
  }
}
