/**
 The audit event record posted by the container-security platform, reduced to the fields the
 Slack formatter reads. Go's zero values stand for fields absent from the payload.
 */
module Aqua {
  import opened GoInt

  /** The alert sub-structure of an audit, already decoded from the payload. */
  datatype Data = Data(
    blocking: bool,
    controls: seq<string>,   // names of the failed policy controls, in payload order
    pending: bool
  )

  /** One audit event. `result` is 1 = success, 2 = block, 3 = detect, 4 = alert; any other value
      can arrive and is handled by the formatter. */
  datatype Audit = Audit(
    action: string,
    adjective: string,
    category: string,
    critical: Int64,
    data: Data,
    high: Int64,
    host: string,
    image: string,
    low: Int64,
    medium: Int64,
    registry: string,
    result: Int64,
    auditType: string,   // the payload's `type` field
    user: string
  )
}
