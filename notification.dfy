/**
 An alert addressed to a user about a product. It starts unread and unsent;
 it can be marked read and stamped as sent, and nothing marks it unread again.
 */
module Notifications {
  import opened Types

  /** The kind of alert; the code names none of its constants. */
  datatype NotificationType = NotificationType(name: string)

  /** Every field of a notification at one moment. */
  datatype NotificationState = NotificationState(
    user: UserId,
    product: ProductId,
    notificationType: NotificationType,
    title: string,
    message: Option<string>,
    isRead: bool,
    sentAt: Option<DateTime>,
    createdAt: DateTime)

  /** `create`: the given contents, unread, unsent, stamped with the creation time. */
  function Created(user: UserId, product: ProductId, notificationType: NotificationType,
                   title: string, message: Option<string>, now: DateTime): (s: NotificationState)
    ensures s.user == user && s.product == product && s.notificationType == notificationType
    ensures s.title == title && s.message == message
    ensures !s.isRead && s.sentAt == None && s.createdAt == now
  {
    NotificationState(user, product, notificationType, title, message, false, None, now)
  }

  /** `markAsRead`: read, and nothing else changes. */
  function MarkedRead(s: NotificationState): (r: NotificationState)
    ensures r.isRead
    ensures r.(isRead := s.isRead) == s
  {
    s.(isRead := true)
  }

  /** `markAsSent`: stamped as sent at `now`; whether it was read does not change. */
  function MarkedSent(s: NotificationState, now: DateTime): (r: NotificationState)
    ensures r.sentAt == Some(now)
    ensures r.(sentAt := s.sentAt) == s
  {
    s.(sentAt := Some(now))
  }

  /** Marking a notification read twice is the same as marking it once. */
  lemma MarkedReadIdempotent(s: NotificationState)
    ensures MarkedRead(MarkedRead(s)) == MarkedRead(s)
  {
  }

  /** One call of a notification's methods. */
  datatype NotificationCommand = MarkAsRead | MarkAsSent(now: DateTime)

  function Applied(s: NotificationState, c: NotificationCommand): NotificationState {
    match c
    case MarkAsRead => MarkedRead(s)
    case MarkAsSent(now) => MarkedSent(s, now)
  }

  /** The state after the calls, in order. */
  function Run(s: NotificationState, cs: seq<NotificationCommand>): NotificationState
    decreases |cs|
  {
    if cs == [] then s else Run(Applied(s, cs[0]), cs[1..])
  }

  /**
   Once read, always read: no sequence of calls clears the flag, and none
   changes whom the notification is for or what it says.
   */
  lemma {:induction false} ReadIsPermanent(s: NotificationState, cs: seq<NotificationCommand>)
    ensures s.isRead ==> Run(s, cs).isRead
    ensures Run(s, cs).user == s.user && Run(s, cs).product == s.product
    ensures Run(s, cs).notificationType == s.notificationType
    ensures Run(s, cs).title == s.title && Run(s, cs).message == s.message
    ensures Run(s, cs).createdAt == s.createdAt
    decreases |cs|
  {
    if cs != [] {
      ReadIsPermanent(Applied(s, cs[0]), cs[1..]);
    }
  }

  class Notification {
    var user: UserId
    var product: ProductId
    var notificationType: NotificationType
    var title: string
    var message: Option<string>
    var isRead: bool
    var sentAt: Option<DateTime>
    var createdAt: DateTime

    /** The notification's fields as one value. */
    function State(): NotificationState
      reads this
    {
      NotificationState(user, product, notificationType, title, message, isRead, sentAt, createdAt)
    }

    constructor Create(user: UserId, product: ProductId, notificationType: NotificationType,
                       title: string, message: Option<string>, now: DateTime)
      ensures State() == Created(user, product, notificationType, title, message, now)
    {
      this.user := user;
      this.product := product;
      this.notificationType := notificationType;
      this.title := title;
      this.message := message;
      isRead := false;
      sentAt := None;
      createdAt := now;
    }

    method MarkAsRead()
      modifies this
      ensures State() == MarkedRead(old(State()))
    {
      isRead := true;
    }

    method MarkAsSent(now: DateTime)
      modifies this
      ensures State() == MarkedSent(old(State()), now)
    {
      sentAt := Some(now);
    }
  }
}
