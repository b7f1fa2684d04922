/** Vocabulary shared by every component: optional values, points in time and the errors the
    services report. Texts inside error values are not modelled, only which error is reported. */
module Prelude {

  datatype Option<+T> = None | Some(value: T)

  datatype Result<+T> = Ok(value: T) | Err(error: Error)

  /** An opaque point in time; only equality matters. A zero time in the program is `None`. */
  type Time = int

  datatype Error =
    | NotFound
    | Busy
    | BadState
    | VesselRequired
    | BerthRequired
    | DemandNotPositive
    | DemandExceedsBerth
    | CapacityShort
    | NoAllocation
    | NotIdle
    | AlreadyOnGrid
    | NotOnGrid
    | PhaseNotChecked
    | SyncTimeout
    | CloseFault
    | EmptySequence
    | UnsupportedBerthState
    | UnsupportedStep
    | AlreadyMetering
    | MeterNotRunning
    | NotSuspended
    | InvalidSample
    | NoSamples
    | InvalidPhase
    | UnknownSession
    | NotVerifying
    | VerifyTimeout
    | AlreadyClosed
    | NotOccupied
    | RecorderClosed
    | EmptyEntry

  /** The separator byte of every fingerprinted text. */
  const NUL: char := '\0'

  predicate NulFree(s: string) {
    NUL !in s
  }

  /** The field before the first separator. */
  function FirstField(s: string): string {
    if s == [] || s[0] == NUL then [] else [s[0]] + FirstField(s[1..])
  }

  /** The field after the last separator. */
  function LastField(s: string): string {
    if s == [] || s[|s| - 1] == NUL then [] else LastField(s[..|s| - 1]) + [s[|s| - 1]]
  }

  /** Splitting at the first separator recovers a separator-free first field. */
  lemma {:induction false} FirstFieldOf(a: string, x: string)
    requires NulFree(a)
    ensures FirstField(a + [NUL] + x) == a
    ensures (a + [NUL] + x)[|a| + 1..] == x
  {
    if a != [] {
      FirstFieldOf(a[1..], x);
      assert (a + [NUL] + x)[1..] == a[1..] + [NUL] + x;
    }
  }

  /** Splitting at the last separator recovers a separator-free last field. */
  lemma {:induction false} LastFieldOf(x: string, a: string)
    requires NulFree(a)
    ensures LastField(x + [NUL] + a) == a
    ensures (x + [NUL] + a)[..|x|] == x
  {
    var s := x + [NUL] + a;
    if a != [] {
      var init := a[..|a| - 1];
      LastFieldOf(x, init);
      assert s[..|s| - 1] == x + [NUL] + init && a == init + [a[|a| - 1]];
    }
  }
}
