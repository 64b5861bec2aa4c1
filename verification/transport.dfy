/** The transport library seen from the client: handles for a client and a
    joined room, the outcome of a join attempt, and named messages with a
    dictionary payload. What the library does internally is not modelled. */
module Transport {
  import opened Wrappers

  /** A `Client`; `serial` tells apart two clients built for the same endpoint. */
  datatype ClientHandle = ClientHandle(endpoint: string, serial: nat)

  /** A joined `Room`: the server's room id, this client's session id, and the
      optional `id` property that roomStore.setRoom reads. */
  datatype RoomHandle = RoomHandle(roomId: string, sessionId: string, id: Option<string>)

  /** What a rejected promise carries: an `Error` with its message, or any
      other thrown value. */
  datatype Thrown = ErrorObject(message: string) | OtherValue

  /** How an awaited `joinOrCreate` settles. */
  datatype JoinOutcome = Joined(room: RoomHandle) | Rejected(thrown: Thrown)

  /** A value in a message payload. */
  datatype Value = Num(n: real) | Flag(b: bool) | Text(s: string)

  /** `room.send(name, payload)` with a string message name. */
  datatype Message = Message(name: string, payload: map<string, Value>)
}
