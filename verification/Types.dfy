/** Values shared by every part of the model. */
module Types {

  datatype Option<+T> = None | Some(value: T)

  function Or<T>(a: Option<T>, b: Option<T>): Option<T> { if a.Some? then a else b }

  // An instant on the UTC time line, in microseconds.
  type Time = int

  const SECOND: Time := 1_000_000
  const MINUTE: Time := 60 * SECOND
  const HOUR: Time := 60 * MINUTE
  const DAY: Time := 24 * HOUR

  datatype Origin = Webhook | Reconcile | Manual

  datatype EventType =
    | RequestCreated
    | RequestApproved
    | RequestDeclined
    | RequestAvailable
    | MediaGrabbed
    | MediaImported
    | MediaUpgraded
    | MediaDeleted
    | PlaybackStarted
    | PlaybackStopped
    | WatchCompleted
    | HealthIssue
    | SourceUnknown
    | ReconcileGap

  function TypeName(t: EventType): string {
    match t
    case RequestCreated => "request.created"
    case RequestApproved => "request.approved"
    case RequestDeclined => "request.declined"
    case RequestAvailable => "request.available"
    case MediaGrabbed => "media.grabbed"
    case MediaImported => "media.imported"
    case MediaUpgraded => "media.upgraded"
    case MediaDeleted => "media.deleted"
    case PlaybackStarted => "playback.started"
    case PlaybackStopped => "playback.stopped"
    case WatchCompleted => "watch.completed"
    case HealthIssue => "health.issue"
    case SourceUnknown => "source.unknown"
    case ReconcileGap => "reconcile.gap"
  }

  function Min(a: int, b: int): int { if a <= b then a else b }

  function Max(a: int, b: int): int { if a <= b then b else a }
}
