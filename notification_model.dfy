/** The Notification record kept in the store. */
module NotificationModel {
  import opened Wrappers

  datatype NotificationType = ERROR | WARNING | INFO | SUCCESS

  /** The structured error detail of an ERROR notification. */
  datatype ErrorData = ErrorData(errorType: string, errorMessage: Option<string>)

  /** `id` stands for the document id; `kind` for the schema's `type` field. */
  datatype Notification = Notification(
    id: nat,
    kind: NotificationType,
    title: string,
    message: string,
    machineId: string,
    orderCode: Option<string>,
    data: ErrorData,
    read: bool,
    readAt: Option<nat>,
    createdAt: nat)
}
