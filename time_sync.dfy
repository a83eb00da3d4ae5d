/**
 * The clock correction of the `ui/` views: the difference between the time
 * service's answer and the local clock at the moment the answer is read.
 */
module TimeSync {
  import opened Wrappers

  /**
   * What one time request ends with. `SyncFailed` is a transport error, a
   * non-2xx status or a body that is not JSON (all reach the `catch`);
   * `SyncReceived` is a JSON body whose `time` field parsed to `serverTime`
   * (None: missing or unparseable) read when the local clock said `clientNow`.
   */
  datatype SyncOutcome = SyncFailed | SyncReceived(serverTime: Option<int>, clientNow: int)

  /**
   * The offset as the code computes it: `new Date(data.time) - new Date()`. A body
   * whose `time` does not parse gives NaN (None here), and no exception is thrown,
   * so the `catch` that resets the offset to 0 does not run.
   */
  function OffsetAsWritten(o: SyncOutcome): (r: Option<int>)
    ensures o.SyncFailed? ==> r == Some(0)
    ensures o.SyncReceived? && o.serverTime.Some? ==> r == Some(o.serverTime.value - o.clientNow)
    ensures o.SyncReceived? && o.serverTime.None? ==> r.None?
  {
    match o
    case SyncFailed => Some(0)
    case SyncReceived(server, client) =>
      if server.Some? then Some(server.value - client) else None
  }

  /** A body without a usable `time` leaves the offset NaN instead of the fallback 0. */
  lemma UnparseableTimeGivesNaN(clientNow: int)
    ensures OffsetAsWritten(SyncReceived(None, clientNow)) != Some(0)
  {
  }

  /**
   * The offset with every failure, a malformed body included, falling back to
   * exactly 0 (never to the previous offset).
   */
  function Offset(o: SyncOutcome): (r: int)
    ensures o.SyncReceived? && o.serverTime.Some? ==> r == o.serverTime.value - o.clientNow
    ensures !(o.SyncReceived? && o.serverTime.Some?) ==> r == 0
  {
    match o
    case SyncFailed => 0
    case SyncReceived(server, client) => if server.Some? then server.value - client else 0
  }

  /** "Corrected now": the local clock plus the offset, recomputed at every use. */
  function CorrectedNow(localNow: int, offset: int): int {
    localNow + offset
  }

  /** Right after a successful sync the corrected clock reads the server's time. */
  lemma CorrectedNowMatchesServer(server: int, client: int)
    ensures CorrectedNow(client, Offset(SyncReceived(Some(server), client))) == server
  {
  }

  /** After a failed sync the corrected clock is the local clock. */
  lemma FailedSyncUsesLocalClock(localNow: int)
    ensures CorrectedNow(localNow, Offset(SyncFailed)) == localNow
  {
  }

  /** The corrected offset agrees with the code wherever the code yields a number. */
  lemma OffsetAgreesWhenDefined(o: SyncOutcome)
    requires OffsetAsWritten(o).Some?
    ensures Offset(o) == OffsetAsWritten(o).value
  {
  }
}
