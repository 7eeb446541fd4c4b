/** The debounce hook (hooks/useDebounce.ts): each call cancels the pending
    invocation and schedules a new one with its own arguments, so at most one
    is ever pending. The timeout is an explicit expiry event. */
module Debounce {
  import opened Options

  /** The `timeoutRef` slot: the arguments of the invocation that is
      scheduled and has neither run nor been cancelled, if any. */
  class Debouncer<T> {
    var pending: Option<T>

    constructor ()
      ensures pending == None
    {
      pending := None;
    }

    /** debouncedCallback: clear any pending timeout, schedule one for `args`. */
    method Call(args: T)
      modifies this
      ensures pending == Some(args)
    {
      pending := Some(args);
    }

    /** The timeout fires: the callback runs with the pending arguments, once. */
    method TimerExpired() returns (invoked: Option<T>)
      modifies this
      ensures invoked == old(pending)
      ensures pending == None
    {
      invoked := pending;
      pending := None;
    }

    /** The unmount cleanup cancels the pending invocation. */
    method Unmount()
      modifies this
      ensures pending == None
    {
      pending := None;
    }
  }

  /** Two calls before the timeout: only the later one's arguments reach the
      callback, and a second expiry runs nothing. */
  method LatestCallWins<T>(d: Debouncer<T>, first: T, second: T)
    returns (run: Option<T>, rerun: Option<T>)
    modifies d
    ensures run == Some(second) && rerun == None
  {
    d.Call(first);
    d.Call(second);
    run := d.TimerExpired();
    rerun := d.TimerExpired();
  }

  /** A call followed by unmount never reaches the callback. */
  method UnmountCancels<T>(d: Debouncer<T>, args: T) returns (invoked: Option<T>)
    modifies d
    ensures invoked == None
  {
    d.Call(args);
    d.Unmount();
    invoked := d.TimerExpired();
  }
}
