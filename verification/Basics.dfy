/** Results, byte strings and hexadecimal identities shared by every model file. */
module Basics {
  newtype byte = x: int | 0 <= x < 256
  type Bytes = seq<byte>

  datatype Option<+T> = None | Some(value: T)

  /** Why an operation was refused or could not be carried out. */
  datatype Error =
    | SystemError              // an operating-system call, command or timeout failed
    | LeftoverTemporary        // an interrupted write left a ".new" file behind
    | InvalidMetadata
    | InvalidEnvelope
    | NoTrustAnchor
    | BadSignature
    | VerifierChanged
    | Incompatible
    | Expired
    | PlatformUnavailable
    | InvalidIdentity
    | ReleaseChanged
    | UpdatesDisabled
    | InvalidState
    | ProofFailed
    | RecoveryRevoked
    | NeedsReconciliation
    | UnexpectedLink
    | StagedChanged
    | ArtefactMismatch
    | InstalledRevoked
    | ClockMovedBack(now: int)
    | LeaseExpired(now: int)
    | ChannelRevoked
    | ReleaseQuarantined
    | ReplayOrEquivocation
    | UpgradeFailed
    | NoRollbackRelease
    | EndpointRefused
    | TransportOffline
    | TooLarge

  /** Errors that an effect on the host can raise by itself. */
  predicate FromHost(e: Error) { e.SystemError? || e.LeftoverTemporary? }

  /** Refusals that only a concluded check makes: each names the decision it comes from. */
  predicate Decides(e: Error)
  {
    || e.InstalledRevoked? || e.ClockMovedBack? || e.LeaseExpired? || e.ChannelRevoked?
    || e.ReleaseQuarantined? || e.ReplayOrEquivocation? || e.UpgradeFailed?
  }

  /** The durable state does not add up, and an operator has to look. */
  predicate NeedsOperator(e: Error) { e.NeedsReconciliation? || e.UnexpectedLink? }

  /** Every other error can come from more than one place and says less. */
  predicate Telling(e: Error) { Decides(e) || NeedsOperator(e) }

  /** How a call ends: a value, a raised exception, or the death of the process part-way. */
  datatype Result<+T> = Returned(value: T) | Raised(error: Error) | Died
  {
    predicate IsFailure() { !Returned? }

    function PropagateFailure<U>(): Result<U>
      requires IsFailure()
    {
      if Died? then Died else Raised(error)
    }

    function Extract(): T
      requires Returned?
    {
      value
    }
  }

  predicate IsHexDigit(c: char) { '0' <= c <= '9' || 'a' <= c <= 'f' }

  /** Exactly n lower-case hexadecimal digits. */
  predicate IsHex(s: string, n: nat)
  {
    |s| == n && forall i | 0 <= i < |s| :: IsHexDigit(s[i])
  }

  type Sha = s: string | IsHex(s, 64) witness seq(64, _ => '0')

  predicate InRange(n: int, low: int, high: int) { low <= n <= high }

  function Min(a: int, b: int): int { if a <= b then a else b }
}
