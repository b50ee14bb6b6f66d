/**
 * The part of UNUserNotificationCenter that the core touches: a request with a
 * title and a body is handed over, and nothing comes back. Identifiers, the
 * sound and the completion handler are not modelled: the monitor's requests
 * carry the default sound, the view's requests carry none.
 */
module NotificationCenter {

  /** The content of one notification request handed to the notification center. */
  datatype Request = Request(title: string, body: string)
}
