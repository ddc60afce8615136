/** What crosses between windows by postMessage (HTML Standard, section 9.3). */
module Messages {
  datatype Window = OpenerWindow | PopupWindow | OtherWindow(id: nat)

  datatype Kind = Ready | Sign | Authorize | Unrecognised(name: string)

  /** Event data: anything that is not an object, or an object with its `kind` field and the rest of its fields.
      For an authorize request the rest is the challenge nonce. */
  datatype Data = NotAnObject | Message(kind: Kind, body: string)

  /** `source` and `origin` are set by the browser and cannot be chosen by the sender. */
  datatype Event = Event(source: Window, origin: string, data: Data)

  datatype Post = Post(data: Data, target: string)

  /** The `ready` announcement carries no other field. */
  const READY := Message(Ready, "")

  predicate IsRequest(d: Data) {
    d.Message? && (d.kind == Sign || d.kind == Authorize)
  }

  /** An origin that names nobody. */
  predicate IsOpaque(origin: string) {
    origin == "" || origin == "null"
  }
}
