/** The connection store (src/stores/connectionStore.ts): a status and an
    optional error. No setter is guarded: each succeeds from every status. */
module ConnectionStore {
  import opened Wrappers

  datatype Status = Idle | Connecting | Connected | Failed | Disconnected

  class Store {
    var status: Status
    var error: Option<string>

    /** Holds after construction and after every setter: while connecting
        or connected there is no error on record. */
    predicate Valid()
      reads this
    {
      (status == Connecting || status == Connected) ==> error == None
    }

    predicate IsInitial()
      reads this
    {
      status == Idle && error == None
    }

    constructor ()
      ensures IsInitial() && Valid()
    {
      status, error := Idle, None;
    }

    method SetConnecting()
      modifies this
      ensures status == Connecting && error == None
      ensures Valid()
    {
      status, error := Connecting, None;
    }

    method SetConnected()
      modifies this
      ensures status == Connected && error == None
      ensures Valid()
    {
      status, error := Connected, None;
    }

    method SetFailed(e: Option<string>)
      modifies this
      ensures status == Failed && error == e
      ensures Valid()
    {
      status, error := Failed, e;
    }

    /** Changes only the status: an error recorded by `setFailed` survives. */
    method SetDisconnected()
      modifies this
      ensures status == Disconnected && error == old(error)
      ensures Valid()
    {
      status := Disconnected;
    }

    method Reset()
      modifies this
      ensures IsInitial() && Valid()
    {
      status, error := Idle, None;
    }
  }

  /** A failure message survives the later `setDisconnected`, and only
      `setConnecting`, `setConnected` or `reset` clear it. */
  method FailedThenDisconnectedKeepsError(s: Store, e: string)
    modifies s
    ensures s.status == Disconnected && s.error == Some(e)
  {
    s.SetFailed(Some(e));
    s.SetDisconnected();
  }
}
