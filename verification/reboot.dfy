/** The process-wide reboot request flag. */
module Reboot {

  class RebootFlag {
    /** `reboot_request_flag`. */
    var requested: bool

    /** Static initialisation: no reboot has been requested. */
    constructor ()
      ensures !requested
    {
      requested := false;
    }

    /** `requestReboot()`. */
    method RequestReboot()
      modifies this
      ensures requested
    {
      requested := true;
    }

    /** `isRebootRequested()`. */
    method IsRebootRequested() returns (r: bool)
      ensures r == requested
    {
      r := requested;
    }
  }

  /** A fresh flag reads false; after a request it reads true, and a second
      request and further reads keep it true. */
  method RequestIsSticky() returns (before: bool, once: bool, twice: bool)
    ensures !before && once && twice
  {
    var flag := new RebootFlag();
    before := flag.IsRebootRequested();
    flag.RequestReboot();
    once := flag.IsRebootRequested();
    flag.RequestReboot();
    twice := flag.IsRebootRequested();
  }
}
