/** The message record that travels through queues, rings and files. */
module Messages {
  import opened Base

  /** A JSON value, kept as opaque text. */
  type Json = string

  datatype Message = Message(
    id: string, fromAddr: string, fromAlias: Option<string>, to: string,
    body: Json, replyTo: Option<string>, ts: real)

  /** Each id occurs at most once. */
  predicate DistinctIds(msgs: seq<Message>) {
    forall i, j :: 0 <= i < j < |msgs| ==> msgs[i].id != msgs[j].id
  }
}
