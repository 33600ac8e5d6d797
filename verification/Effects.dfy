/** What a tool declares about its effect, and the registry recovery looks it up in. */
module Effects {
  import opened Types

  /** What a tool asks for; `verify` says whether the effect has a probe. */
  datatype Declaration = Declaration(keyParam: Option<string>, mapKey: Option<string -> string>, verify: bool) {
    /** A key parameter has a name, and only a key parameter can be mapped. */
    predicate Constructible() {
      && (keyParam.Some? ==> keyParam.value != "")
      && (mapKey.Some? ==> keyParam.Some?)
    }

    /** A downstream key decides, even when there is a probe as well. */
    function Guarantee(): Guarantee {
      if keyParam.Some? then DownstreamIdempotent else if verify then Verifiable else AtMostOnce
    }

    /** What execute receives and what the row stores; a mapped key must not be empty. */
    function DownstreamKeyFor(ledgerKey: string): DownstreamKey {
      if keyParam.None? then Sent(None)
      else if mapKey.None? then Sent(Some(ledgerKey))
      else if mapKey.value(ledgerKey) == "" then BrokenMap
      else Sent(Some(mapKey.value(ledgerKey)))
    }
  }

  /** A declaration that was not refused when it was made. */
  type Effect = d: Declaration | d.Constructible() witness Declaration(None, None, false)

  datatype DownstreamKey = Sent(key: Option<string>) | BrokenMap

  /** What the preconditions of an action are to a caller: none; a callable whose raising
      counts as a no; or one whose raising is the caller's to see. */
  datatype Preconditions = Unconditional | Coerced | Raw

  datatype Precheck = Held | NotHeld | Threw

  datatype Registration = Registration(effect: Effect, hasPreconditions: bool)

  type Registry = map<string, Registration>

  /** An owner must give up on execute before its row can be taken over. */
  predicate WindowOk(olderThan: int, executeTimeout: Option<int>) {
    executeTimeout.Some? ==> 0 < executeTimeout.value < olderThan
  }
}
