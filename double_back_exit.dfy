/** The double-back-to-exit hook (hooks/useDoubleBackExit.ts): the first back
    press shows a message and arms a reset timer, the second asks the app to
    exit. The timer is an explicit expiry event. */
module DoubleBackExit {
  import opened Options

  /** The hook's default message. */
  const DefaultMessage: string := "Press back again to exit"

  /** The hook's refs: `backPressCount`, and whether `backPressTimer` holds a
      timeout that has neither fired nor been cleared. */
  class BackPressHandler {
    const message: string
    var count: int
    var timerArmed: bool

    /** The counter never goes negative, and a reset timer is pending only
        while exactly one press has been counted. */
    ghost predicate Valid()
      reads this
    {
      count >= 0 && (timerArmed ==> count == 1)
    }

    /** The hook's `message` argument falls back to DefaultMessage when it
        is not given. */
    constructor (message: Option<string>)
      ensures Valid() && this.message == message.GetOr(DefaultMessage)
      ensures count == 0 && !timerArmed
    {
      this.message := message.GetOr(DefaultMessage);
      count := 0;
      timerArmed := false;
    }

    /** handleDoubleBackPress: count the press; on the first, show the message
        and arm the reset timer; on the second, clear the timer and exit; on
        any later one, do nothing more. */
    method Press() returns (toast: Option<string>, exit: bool)
      requires Valid()
      modifies this`count, this`timerArmed
      ensures Valid()
      ensures count == old(count) + 1
      ensures toast == (if count == 1 then Some(message) else None)
      ensures exit <==> count == 2
      ensures timerArmed <==> count == 1
    {
      count := count + 1;
      toast, exit := None, false;
      if count == 1 {
        toast := Some(message);
        timerArmed := true;
      } else if count == 2 {
        timerArmed := false;
        exit := true;
      }
    }

    /** The reset timer fires: the count goes back to 0. With no timer
        pending there is nothing to fire. */
    method TimerExpired()
      requires Valid()
      modifies this`count, this`timerArmed
      ensures Valid() && !timerArmed
      ensures count == if old(timerArmed) then 0 else old(count)
    {
      if timerArmed {
        count := 0;
        timerArmed := false;
      }
    }

    /** The unmount cleanup clears a pending reset timer. */
    method Unmount()
      requires Valid()
      modifies this`timerArmed
      ensures Valid() && !timerArmed
    {
      timerArmed := false;
    }
  }

  /** Two presses with no expiry between them: a message, then an exit. */
  method SecondPressExits(h: BackPressHandler) returns (toast: Option<string>, exit: bool)
    requires h.Valid() && h.count == 0
    modifies h`count, h`timerArmed
    ensures toast == None && exit
  {
    var firstToast, firstExit := h.Press();
    assert firstToast == Some(h.message) && !firstExit;
    toast, exit := h.Press();
  }

  /** Once the reset timer has fired, the next press is a first press again. */
  method PressAfterExpiryStartsOver(h: BackPressHandler) returns (toast: Option<string>, exit: bool)
    requires h.Valid() && h.count == 1 && h.timerArmed
    modifies h`count, h`timerArmed
    ensures toast == Some(h.message) && !exit
  {
    h.TimerExpired();
    toast, exit := h.Press();
  }

  /** After unmount no reset happens: an expiry leaves the count alone, so a
      handler that had counted one press stays at one. */
  method NoResetAfterUnmount(h: BackPressHandler)
    requires h.Valid() && h.count == 1
    modifies h`count, h`timerArmed
    ensures h.count == 1 && !h.timerArmed
  {
    h.Unmount();
    h.TimerExpired();
  }
}
