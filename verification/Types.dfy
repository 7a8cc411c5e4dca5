/** Values shared by the protocol modules. */
module Types {
  datatype Option<+T> = None | Some(value: T)

  /** One parsed server line (src/protocol/message.h). */
  datatype Message = Message(room: string, kind: string, args: seq<string>)

  /** A parsed Pokemon identifier (src/protocol/ident.h); a NUL slot means the slot is absent. */
  datatype Ident = Ident(slot: char, side: string, name: string)

  const NUL: char := '\0'
  const NO_IDENT := Ident(NUL, "", "")
}
