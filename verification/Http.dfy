/** Messages exchanged by the two HTTP sessions, reduced to what the handlers look at. */
module Http {
  type Body = seq<bv8>

  datatype Status = Success | BadRequest | OtherStatus(code: nat)

  datatype Request = Request(target: string, keepAlive: bool)

  // needEof: the end of the message is the end of the connection
  datatype Response = Response(status: Status, body: Body, needEof: bool)
}
