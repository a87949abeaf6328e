/** The process-wide, lazily created warehouse connection (server.py, get_snowflake_connection).

    The holder is `Option<H>` over an abstract handle type `H`. The driver's
    connect call is not modelled: each call of the accessor is given the outcome
    the driver would produce, so the model stays a pure state transition. */
module Connection {
  import opened Opt

  /** What the driver's connect call does on one attempt. Any exception raised
      while connecting (an import failure of the driver included) is `Failed`. */
  datatype ConnectOutcome<H> = Connected(handle: H) | Failed

  /** One call of the accessor: the holder after the call, which is also what
      the call returns. The driver is consulted only when the holder is empty. */
  function GetConnection<H>(holder: Option<H>, attempt: ConnectOutcome<H>): (after: Option<H>)
    ensures holder.Some? ==> after == holder
    ensures holder.None? ==> (after.Some? <==> attempt.Connected?)
    ensures holder.None? && attempt.Connected? ==> after.value == attempt.handle
  {
    if holder.Some? then holder
    else
      match attempt
      case Connected(h) => Some(h)
      case Failed => None
  }

  /** The holder after a run of sequential calls, given each call's connect outcome. */
  function Replay<H>(holder: Option<H>, attempts: seq<ConnectOutcome<H>>): Option<H>
    decreases |attempts|
  {
    if |attempts| == 0 then holder
    else Replay(GetConnection(holder, attempts[0]), attempts[1..])
  }

  /** A held connection is never replaced or dropped, whatever the driver would do. */
  lemma {:induction false} HeldConnectionIsKept<H>(h: H, attempts: seq<ConnectOutcome<H>>)
    ensures Replay(Some(h), attempts) == Some(h)
    decreases |attempts|
  {
    if |attempts| > 0 {
      HeldConnectionIsKept(h, attempts[1..]);
    }
  }

  /** Starting empty, the holder ends empty exactly when every attempt failed:
      a failure is not remembered, so each later call tries again. */
  lemma {:induction false} EmptyIffAllFailed<H>(attempts: seq<ConnectOutcome<H>>)
    ensures Replay(None, attempts).None? <==> forall i :: 0 <= i < |attempts| ==> attempts[i].Failed?
    decreases |attempts|
  {
    if |attempts| > 0 {
      EmptyIffAllFailed(attempts[1..]);
      if attempts[0].Connected? {
        HeldConnectionIsKept(attempts[0].handle, attempts[1..]);
      } else {
        assert forall i :: 1 <= i < |attempts| ==> attempts[i] == attempts[1..][i - 1];
      }
    }
  }

  /** Starting empty, the holder keeps the handle of the first attempt that connected. */
  lemma {:induction false} FirstSuccessWins<H>(attempts: seq<ConnectOutcome<H>>, k: nat)
    requires k < |attempts| && attempts[k].Connected?
    requires forall j :: 0 <= j < k ==> attempts[j].Failed?
    ensures Replay(None, attempts) == Some(attempts[k].handle)
    decreases k
  {
    if k == 0 {
      HeldConnectionIsKept(attempts[0].handle, attempts[1..]);
    } else {
      assert attempts[0].Failed?;
      assert attempts[1..][k - 1] == attempts[k];
      FirstSuccessWins(attempts[1..], k - 1);
    }
  }
}
