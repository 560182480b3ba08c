/** The interest mask of one file descriptor: src/muradin/net/evt_channel.cpp, over the part of
    ep_poller.cpp that keeps the mask in the kernel. */
module EvtChannel {

  datatype Flag = IN | PRI | OUT | ERR | HUP | RDHUP | OTHER

  const READING: set<Flag> := {IN, HUP, PRI}

  /** `mask` is the stored mask, which every dispatch overwrites with the ready set. `interest` is what
      the kernel has been told, as long as the descriptor is registered. */
  datatype Chan = Chan(mask: set<Flag>, progress: bool, registered: bool, interest: set<Flag>)

  const NEW := Chan({}, false, false, {})

  // `ok` is the kernel's answer to epoll_ctl. A failure is only logged.

  function Joined(c: Chan, ok: bool): Chan {
    if ok then c.(registered := true, interest := c.mask) else c
  }

  function Removed(c: Chan, ok: bool): Chan {
    if ok then c.(registered := false, interest := {}) else c
  }

  /** Updating a descriptor the kernel does not know fails and changes nothing. */
  function Updated(c: Chan): Chan {
    if c.registered then c.(interest := c.mask) else c
  }

  /** The disabling branches intersect with the flags instead of removing them, as the source does. */
  function ReadEnabled(c: Chan, enable: bool): Chan {
    Updated(c.(mask := if enable then c.mask + READING else c.mask * READING))
  }

  function WriteEnabled(c: Chan, enable: bool): Chan {
    if enable && c.progress then c
    else
      Updated(c.(mask := if enable then c.mask + {OUT} else c.mask * {OUT})).(progress := enable)
  }

  function Saved(c: Chan, ready: set<Flag>): Chan {
    c.(mask := ready)
  }

  /** Enabling adds flags to the stored mask and disabling keeps no others; a registered channel's interest
      follows, but for a request for writability while one is in progress, which changes nothing. */
  lemma MaskEffect(c: Chan, enable: bool)
    ensures
      var d := ReadEnabled(c, enable);
      && d.mask == (if enable then c.mask + {IN, HUP, PRI} else c.mask * {IN, HUP, PRI})
      && d.interest == (if c.registered then d.mask else c.interest)
      && d.registered == c.registered && d.progress == c.progress
    ensures
      var d := WriteEnabled(c, enable);
      if enable && c.progress then d == c
      else
        && d.mask == (if enable then c.mask + {OUT} else c.mask * {OUT})
        && d.interest == (if c.registered then d.mask else c.interest)
        && d.registered == c.registered && d.progress == enable
    ensures Joined(c, enable) == if enable then Chan(c.mask, c.progress, true, c.mask) else c
    ensures Removed(c, enable) == if enable then Chan(c.mask, c.progress, false, {}) else c
  {
  }

  /** Asking for writability leaves the kernel interested in it, and the stored mask larger by it at
      most, provided an earlier request in progress had reached the kernel. */
  lemma WriteEnabledReachesKernel(c: Chan)
    requires c.registered && (c.progress ==> OUT in c.interest)
    ensures OUT in WriteEnabled(c, true).interest && WriteEnabled(c, true).progress
    ensures c.mask <= WriteEnabled(c, true).mask <= c.mask + {OUT}
  {
  }

  /** Disabling reads and then writes empties both masks, because the two sets of flags are disjoint. */
  lemma DisablingBothClears(c: Chan)
    ensures WriteEnabled(ReadEnabled(c, false), false).mask == {}
    ensures c.registered ==> WriteEnabled(ReadEnabled(c, false), false).interest == {}
    ensures !WriteEnabled(ReadEnabled(c, false), false).progress
  {
    assert (c.mask * READING) * {OUT} == {};
  }

  class EvtChannel {
    var lastEvtStatus: set<Flag>
    var progressInWrite: bool
    /* What the poller and the kernel hold of this channel. */
    var registered: bool
    var interest: set<Flag>

    ghost function View(): Chan
      reads this
    {
      Chan(lastEvtStatus, progressInWrite, registered, interest)
    }

    constructor ()
      ensures View() == NEW
    {
      lastEvtStatus := {};
      progressInWrite := false;
      registered := false;
      interest := {};
    }

    method JoinToService(ok: bool)
      modifies this
      ensures View() == Joined(old(View()), ok)
      ensures ok ==> registered && interest == lastEvtStatus == old(lastEvtStatus)
      ensures !ok ==> View() == old(View())
    {
      if ok {
        registered := true;
        interest := lastEvtStatus;
      }
    }

    method RemoveFromService(ok: bool)
      modifies this
      ensures View() == Removed(old(View()), ok)
      ensures ok ==> !registered && interest == {} && lastEvtStatus == old(lastEvtStatus)
      ensures !ok ==> View() == old(View())
    {
      if ok {
        registered := false;
        interest := {};
      }
    }

    method UpdateChannel()
      modifies this`interest
      ensures View() == Updated(old(View()))
    {
      if registered {
        interest := lastEvtStatus;
      }
    }

    method EnableRead(enable: bool)
      modifies this
      ensures View() == ReadEnabled(old(View()), enable)
      ensures lastEvtStatus ==
        if enable then old(lastEvtStatus) + {IN, HUP, PRI} else old(lastEvtStatus) * {IN, HUP, PRI}
      ensures registered == old(registered) && progressInWrite == old(progressInWrite)
      ensures interest == if registered then lastEvtStatus else old(interest)
    {
      if enable {
        lastEvtStatus := lastEvtStatus + READING;
      } else {
        lastEvtStatus := lastEvtStatus * READING;
      }
      UpdateChannel();
    }

    method EnableWrite(enable: bool)
      modifies this
      ensures View() == WriteEnabled(old(View()), enable)
      ensures progressInWrite == enable && registered == old(registered)
      ensures enable && old(progressInWrite) ==> View() == old(View())
      ensures enable && !old(progressInWrite) ==> lastEvtStatus == old(lastEvtStatus) + {OUT}
      ensures !enable ==> lastEvtStatus == old(lastEvtStatus) * {OUT}
      ensures !(enable && old(progressInWrite)) ==> interest == if registered then lastEvtStatus else old(interest)
    {
      if enable && progressInWrite {
        return;
      }
      if enable {
        lastEvtStatus := lastEvtStatus + {OUT};
      } else {
        lastEvtStatus := lastEvtStatus * {OUT};
      }
      UpdateChannel();
      progressInWrite := enable;
    }

    method SaveEvtStatus(ready: set<Flag>)
      modifies this
      ensures View() == Saved(old(View()), ready)
      ensures lastEvtStatus == ready
      ensures progressInWrite == old(progressInWrite)
      ensures registered == old(registered) && interest == old(interest)
    {
      lastEvtStatus := ready;
    }
  }
}
