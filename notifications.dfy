/** Optional values: the framework's null and undefined. */
module Wrappers {
  datatype Option<+T> = None | Some(value: T)
}

/**
 * The message value broadcast by the framework (class puremvc.Notification).
 */
module Notifications {
  import opened Wrappers

  /**
   * An application value the framework only stores and passes along: a
   * notification body, a proxy's data, a mediator's view component.
   * Only its identity matters to the framework.
   */
  type Payload = nat

  /**
   * A notification: the name that selects its observers, an optional body and
   * an optional type discriminator, exactly as given to its initializer.
   * (`noteType` is the source's `type`, a reserved word in Dafny.)
   */
  datatype Notification = Notification(name: string, body: Option<Payload>, noteType: Option<string>)

}
