/** Business events (internal/events/types.go). JSON text is left abstract: payloads and
    timestamps are carried as the strings they are stored as. */
module Events {
  datatype Event = Event(id: string, kind: string, payload: string, source: string, timestamp: string)

  /** The five event types the ingest endpoints accept. */
  predicate ValidType(kind: string) {
    kind in {"order_placed", "support_ticket_created", "payment_failed", "user_signup", "inventory_low"}
  }
}
