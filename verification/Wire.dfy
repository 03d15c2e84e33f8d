/** Values that cross the wire, shared by the protocol and the managed driver. */
module Wire {
  datatype Option<+T> = None | Some(value: T)

  datatype Result<+T, +E> = Ok(value: T) | Err(error: E)

  type Topic = string

  /** A request reference. References are allocated from 1, so 0 stands for every
      incoming string that is not the decimal rendering of a positive number
      (see `References.Classify`). */
  type Ref = nat

  /** A JSON value, as far as a reply envelope looks into it. */
  datatype Value = Text(text: string) | Object(fields: map<string, Value>) | Opaque(id: nat)

  datatype Payload =
    | Json(value: Value)
    | Binary(bytes: seq<int>)
    | Reply(status: string, response: Payload)

  datatype Frame = Frame(
    joinRef: Option<Ref>, reference: Option<Ref>, topic: Topic, event: string, payload: Payload)

  const EMPTY_OBJECT: Payload := Json(Object(map[]))

  const PHOENIX_TOPIC := "phoenix"
}
