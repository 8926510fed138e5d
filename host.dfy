/**
 * The one host primitive both connectors are built on: Kodi's
 * JSONRPC.NotifyAll broadcast, which every Monitor.onNotification then
 * receives.  The bus records what was broadcast; delivering a notification
 * is a call of a receiver's OnNotification with it.
 */
module Host {
  import opened Values

  /** A notification as onNotification receives it. */
  datatype Notification = Notification(sender: string, methodName: string, data: string)

  /** Kodi hands NotifyAll's message to the monitors with this prefix. */
  const OTHER_PREFIX: string := "Other."

  class Bus {
    var log: seq<Notification>

    constructor()
      ensures log == []
    {
      log := [];
    }

    /** JSONRPC.NotifyAll(sender, message, data). */
    method NotifyAll(sender: string, message: string, data: string)
      modifies this
      ensures log == old(log) + [Notification(sender, OTHER_PREFIX + message, data)]
    {
      log := log + [Notification(sender, OTHER_PREFIX + message, data)];
    }
  }

  /** The bus after a send that broadcast n when it succeeded and left the bus alone when it raised. */
  predicate Sent(before: seq<Notification>, after: seq<Notification>, n: Result<Notification>, raised: Option<Exc>) {
    match n
    case Ok(x) => raised.None? && after == before + [x]
    case Err(e) => raised == Some(e) && after == before
  }
}
