/** The machine both scripts act on: the two state files and the record of
    the commands issued so far, with `save_current_state` and the one-shot
    commands as methods that change them. */
module Host {
  import opened Wrappers
  import opened Environment
  import opened ProfileStore
  import opened Trace

  class Workstation {
    /** The state files present on disk. */
    var files: Store
    /** Every effect issued so far, oldest first. */
    var trace: seq<Effect>

    constructor (files: Store)
      ensures this.files == files && trace == []
    {
      this.files := files;
      trace := [];
    }

    /** Issue a command that touches no state file: `subprocess.run` of an
        AppleScript, `open_new_tab`, `open -a`. */
    method Issue(e: Effect)
      modifies this
      ensures files == old(files)
      ensures trace == old(trace) + [e]
    {
      trace := trace + [e];
    }

    /** `save_current_state(file)`: query the apps and tabs, build the
        record, overwrite the slot's file. When the app query raises, nothing
        is written and the exception goes to the caller (`saved` false). */
    method SaveCurrentState(slot: Slot, probe: Probe) returns (saved: bool)
      modifies this
      ensures saved <==> Capture(probe).Some?
      ensures saved ==> files == Saved(old(files), slot, Capture(probe).value, probe.mtime)
      ensures saved ==> trace == old(trace) + [Save(slot)]
      ensures !saved ==> files == old(files) && trace == old(trace)
    {
      var apps := RunningApps(probe.appsQuery);
      if apps.None? {
        return false;
      }
      var tabs := ChromeTabs(probe.tabsQuery);
      var content := Stored(Some(probe.timestamp), Some(apps.value), Some(tabs));
      files := files[slot := StateFile(content, probe.mtime)];
      trace := trace + [Save(slot)];
      return true;
    }
  }
}
