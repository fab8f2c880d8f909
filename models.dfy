/**
 * The records the service works on: the persisted notification entity, the
 * two enums it refers to, and the incoming and outgoing transfer records.
 * Identifiers and timestamps are opaque values (the store and the clock
 * choose them).
 */
module Models {
  import opened Wrappers

  type Uuid = nat
  type Timestamp = nat

  /** The notification type enum; only the constant the service uses is declared. */
  datatype NotificationType = TOURNAMENT_STARTED

  /** The notification category enum; only the constant the service uses is declared. */
  datatype NotificationCategory = ALERT

  /** The persisted entity. `id` is absent until the store has saved the record. */
  datatype Notification = Notification(
    id: Option<Uuid>,
    tournamentId: Uuid,
    tournamentName: string,
    message: string,
    notificationType: NotificationType,
    category: NotificationCategory,
    createdAt: Timestamp,
    isRead: bool,
    recipients: seq<string>)

  /** The creation request: type and category arrive as free text. */
  datatype IncomingNotificationDTO = IncomingNotificationDTO(
    tournamentId: Uuid,
    tournamentName: string,
    message: string,
    notificationType: string,
    category: string,
    createdAt: Timestamp,
    isRead: bool,
    recipients: seq<string>)

  /** What is returned to clients and pushed to live subscribers. */
  datatype OutgoingNotificationDTO = OutgoingNotificationDTO(
    id: Option<Uuid>,
    tournamentId: Uuid,
    tournamentName: string,
    message: string,
    notificationType: string,
    category: string,
    createdAt: Timestamp,
    isRead: bool)
}
