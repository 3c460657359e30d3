/** One line of a game transcript, `{type, text}`, kept by the client and by each server-side game. */
module Transcript {

  /** The `type` tag of a log entry: 'system', 'narrative', 'action' or 'diagnosis'. */
  datatype Kind = System | Narrative | Action | Diagnosis

  datatype Entry = Entry(kind: Kind, text: string)
}
