/** The answer of the policy engine, and the three fields of it that are cached. */
module Decisions {

  datatype Decision = Decision(allowed: bool, redactFields: seq<string>, maxCallsPerMinute: int)

  const DENY := Decision(false, [], 0)
}
