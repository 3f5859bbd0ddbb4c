/** go_work.py: `load_work_state`, which saves the current session as the
    personal profile, closes every browser window, and restores the saved
    work session: its tabs first, then its apps. */
module GoWork {
  import opened Wrappers
  import opened ProfileStore
  import opened ModeDetector
  import opened Confirmation
  import opened Trace
  import opened Host

  /** What `load_work_state` does once the personal save is written: close
      every window, then restore the work file if there is one. */
  function Resume(files: Store, launchFails: nat -> bool): Run {
    match Load(files, Work)
    case Missing => Run(FreshSession, files, [CloseAll], [])
    case Corrupt => Run(Aborted, files, [CloseAll], [])
    case Restorable(apps, tabs) =>
      Run(Restored, files, [CloseAll] + OpenTabs(tabs) + Launches(apps), Failures(apps, launchFails))
  }

  /** What one run of `load_work_state` does, given the state files, how the
      prompt ended (`Decision` of the lines the user types), what the OS
      answers during the save, and which launch attempts (by position in the
      saved app list) raise. */
  function WorkSwitch(files: Store, answer: Reply, probe: Probe, launchFails: nat -> bool): Run {
    match answer
    case Exhausted => Run(Aborted, files, [], [])
    case Decided(proceed, _) =>
      if !proceed then Run(Cancelled, files, [], []) else Confirmed(files, probe, launchFails)
  }

  /** What `load_work_state` does once the user has said yes. */
  function Confirmed(files: Store, probe: Probe, launchFails: nat -> bool): Run {
    match Capture(probe)
    case None => Run(Aborted, files, [], [])
    case Some(snap) =>
      var rest := Resume(Saved(files, Personal, snap, probe.mtime), launchFails);
      Run(rest.outcome, rest.files, [Save(Personal)] + rest.effects, rest.failed)
  }

  /** `load_work_state()`. `failed` lists the apps reported as
      "Could not open", in order. */
  method LoadWorkState(w: Workstation, answers: seq<string>, probe: Probe, launchFails: nat -> bool)
      returns (outcome: Outcome, failed: seq<string>)
    modifies w
    ensures var r := WorkSwitch(old(w.files), Decision(answers), probe, launchFails);
      && outcome == r.outcome
      && w.files == r.files
      && w.trace == old(w.trace) + r.effects
      && failed == r.failed
  {
    failed := [];
    var c := GetConfirmation(answers);
    if c.Exhausted? {
      return Aborted, failed;
    }
    if !c.proceed {
      return Cancelled, failed;
    }
    outcome, failed := SwitchConfirmed(w, probe, launchFails);
  }

  /** From the personal save on. */
  method SwitchConfirmed(w: Workstation, probe: Probe, launchFails: nat -> bool) returns (outcome: Outcome, failed: seq<string>)
    modifies w
    ensures var r := Confirmed(old(w.files), probe, launchFails);
      && outcome == r.outcome
      && w.files == r.files
      && w.trace == old(w.trace) + r.effects
      && failed == r.failed
  {
    var saved := w.SaveCurrentState(Personal, probe);
    if !saved {
      return Aborted, [];
    }
    outcome, failed := RestoreWork(w, launchFails);
  }

  /** The rest of `load_work_state` after the personal save. */
  method RestoreWork(w: Workstation, launchFails: nat -> bool) returns (outcome: Outcome, failed: seq<string>)
    modifies w
    ensures var r := Resume(old(w.files), launchFails);
      && outcome == r.outcome
      && w.files == r.files
      && w.trace == old(w.trace) + r.effects
      && failed == r.failed
  {
    failed := [];
    w.Issue(CloseAll);
    var state := Load(w.files, Work);
    if state.Missing? {
      return FreshSession, failed;
    }
    if state.Corrupt? {
      return Aborted, failed;
    }
    ghost var restoring := w.trace;
    OpenAll(w, state.chromeTabs);
    failed := LaunchAll(w, state.runningApps, launchFails);
    assert w.trace == restoring + OpenTabs(state.chromeTabs) + Launches(state.runningApps);
    return Restored, failed;
  }

  /** The `for url in chrome_tabs` loop: one `open_new_tab` per saved URL. */
  method OpenAll(w: Workstation, tabs: seq<string>)
    modifies w
    ensures w.files == old(w.files)
    ensures w.trace == old(w.trace) + OpenTabs(tabs)
  {
    var i := 0;
    while i < |tabs|
      invariant 0 <= i <= |tabs|
      invariant w.files == old(w.files)
      invariant w.trace == old(w.trace) + OpenTabs(tabs[..i])
    {
      w.Issue(OpenTab(tabs[i]));
      assert tabs[..i + 1][..i] == tabs[..i];
      i := i + 1;
    }
    assert tabs[..i] == tabs;
  }

  /** The `for app in running_apps` loop: one `open -a` per saved app; an
      attempt that raises is reported and the loop goes on. */
  method LaunchAll(w: Workstation, apps: seq<string>, launchFails: nat -> bool) returns (failed: seq<string>)
    modifies w
    ensures w.files == old(w.files)
    ensures w.trace == old(w.trace) + Launches(apps)
    ensures failed == Failures(apps, launchFails)
  {
    failed := [];
    var j := 0;
    while j < |apps|
      invariant 0 <= j <= |apps|
      invariant w.files == old(w.files)
      invariant w.trace == old(w.trace) + Launches(apps[..j])
      invariant failed == Failures(apps[..j], launchFails)
    {
      w.Issue(Launch(apps[j]));
      if launchFails(j) {
        failed := failed + [apps[j]];
      }
      assert apps[..j + 1][..j] == apps[..j];
      j := j + 1;
    }
    assert apps[..j] == apps;
  }

  /** Cancelling, or running out of input before deciding, changes nothing
      and issues nothing; the run is cancelled exactly when the first
      decisive answer is a no. */
  lemma WorkDeclineChangesNothing(files: Store, answer: Reply, probe: Probe, launchFails: nat -> bool)
    ensures var r := WorkSwitch(files, answer, probe, launchFails);
      && (r.outcome == Cancelled <==> answer.Decided? && !answer.proceed)
      && (r.effects == [] <==> !(answer.Decided? && answer.proceed && Capture(probe).Some?))
      && (r.effects == [] ==> r.files == files && r.failed == [])
  {
  }

  /** The effects of an accepted run whose save succeeded: the save, the
      close, then the work file's tabs and apps (none when there is no
      readable work file). The work file read is the one from before the
      save, since the save writes only the personal slot. */
  lemma ConfirmedShape(files: Store, probe: Probe, launchFails: nat -> bool)
    requires Capture(probe).Some?
    ensures var r := Confirmed(files, probe, launchFails);
      var work := Load(files, Work);
      var tabs := if work.Restorable? then work.chromeTabs else [];
      var apps := if work.Restorable? then work.runningApps else [];
      && r.effects == [Save(Personal), CloseAll] + OpenTabs(tabs) + Launches(apps)
      && r.outcome == (match work case Missing => FreshSession case Corrupt => Aborted case Restorable(_, _) => Restored)
      && r.failed == Failures(apps, launchFails)
  {
    SaveLoadRoundTrip(files, Personal, Capture(probe).value, probe.mtime, Work);
    var work := Load(files, Work);
    var tabs := if work.Restorable? then work.chromeTabs else [];
    var apps := if work.Restorable? then work.runningApps else [];
    assert [Save(Personal)] + ([CloseAll] + OpenTabs(tabs) + Launches(apps))
        == [Save(Personal), CloseAll] + OpenTabs(tabs) + Launches(apps);
  }

  /** On acceptance the outgoing session always goes to the personal slot,
      whatever the two files' modification times say: exactly that slot is
      written, it reads back as the captured lists, and the work slot is not
      touched. */
  lemma WorkSavesToPersonal(files: Store, answer: Reply, probe: Probe, launchFails: nat -> bool)
    requires answer.Decided? && answer.proceed && Capture(probe).Some?
    ensures var r := WorkSwitch(files, answer, probe, launchFails);
      var snap := Capture(probe).value;
      && SavedSlots(r.effects) == [Personal]
      && Load(r.files, Personal) == Restorable(snap.runningApps, snap.chromeTabs)
      && (Work in r.files <==> Work in files)
      && (Work in files ==> r.files[Work] == files[Work])
  {
    SaveLoadRoundTrip(files, Personal, Capture(probe).value, probe.mtime, Work);
    ConfirmedShape(files, probe, launchFails);
    var work := Load(files, Work);
    RestoreProjections(Personal, if work.Restorable? then work.chromeTabs else [], if work.Restorable? then work.runningApps else []);
  }

  /** Whatever the run does, it happens in phases: the save first, then one
      close of every window, and only then tabs, and all tabs before any
      launch. */
  lemma WorkSwitchPhased(files: Store, answer: Reply, probe: Probe, launchFails: nat -> bool)
    ensures var r := WorkSwitch(files, answer, probe, launchFails);
      && Phased(r.effects)
      && (r.effects != [] ==> |r.effects| >= 2 && r.effects[0] == Save(Personal) && r.effects[1] == CloseAll)
      && (r.effects != [] ==> Closes(r.effects) == 1)
  {
    if answer.Decided? && answer.proceed && Capture(probe).Some? {
      ConfirmedShape(files, probe, launchFails);
      var work := Load(files, Work);
      var tabs := if work.Restorable? then work.chromeTabs else [];
      var apps := if work.Restorable? then work.runningApps else [];
      RestorePhased(Personal, tabs, apps);
      RestoreProjections(Personal, tabs, apps);
    }
  }

  /** With a saved work session, the restore opens exactly its tabs, one per
      URL, in saved order, then attempts to launch exactly its apps, one per
      app, in saved order, and reports as failed exactly the attempts that
      raised. Missing lists restore as empty. */
  lemma WorkRestoresSavedSession(files: Store, answer: Reply, probe: Probe, launchFails: nat -> bool)
    requires answer.Decided? && answer.proceed && Capture(probe).Some?
    requires Load(files, Work).Restorable?
    ensures var r := WorkSwitch(files, answer, probe, launchFails);
      var saved := Load(files, Work);
      && r.outcome == Restored
      && Opened(r.effects) == saved.chromeTabs
      && Launched(r.effects) == saved.runningApps
      && r.failed == Failures(saved.runningApps, launchFails)
  {
    ConfirmedShape(files, probe, launchFails);
    var saved := Load(files, Work);
    RestoreProjections(Personal, saved.chromeTabs, saved.runningApps);
  }

  /** A launch that raises stops nothing: the effects and the outcome of a
      run do not depend on which launches fail. */
  lemma LaunchFailuresDoNotStopRestore(files: Store, answer: Reply, probe: Probe, fails1: nat -> bool, fails2: nat -> bool)
    ensures WorkSwitch(files, answer, probe, fails1).effects == WorkSwitch(files, answer, probe, fails2).effects
    ensures WorkSwitch(files, answer, probe, fails1).outcome == WorkSwitch(files, answer, probe, fails2).outcome
  {
  }

  /** Without a work state file the run ends after closing the windows: no
      tab is opened and no app launched. */
  lemma WorkFreshWithoutWorkFile(files: Store, answer: Reply, probe: Probe, launchFails: nat -> bool)
    requires answer.Decided? && answer.proceed && Capture(probe).Some?
    requires Work !in files
    ensures var r := WorkSwitch(files, answer, probe, launchFails);
      && r.outcome == FreshSession
      && r.effects == [Save(Personal), CloseAll]
      && Opened(r.effects) == [] && Launched(r.effects) == []
  {
    var snap := Capture(probe).value;
    SaveLoadRoundTrip(files, Personal, snap, probe.mtime, Work);
    ProjectionsAppend([Save(Personal)], [CloseAll]);
  }

  /** An unreadable work file aborts the run after the save and the close,
      which are not undone. */
  lemma WorkAbortsOnUnreadableWorkFile(files: Store, answer: Reply, probe: Probe, launchFails: nat -> bool)
    requires answer.Decided? && answer.proceed && Capture(probe).Some?
    requires Load(files, Work).Corrupt?
    ensures var r := WorkSwitch(files, answer, probe, launchFails);
      && r.outcome == Aborted
      && r.effects == [Save(Personal), CloseAll]
      && r.files == Saved(files, Personal, Capture(probe).value, probe.mtime)
  {
    SaveLoadRoundTrip(files, Personal, Capture(probe).value, probe.mtime, Work);
  }

  /** The asymmetry between the two scripts: after a switch to work, with a
      clock that has not gone backwards, the detector says `personal`,
      because the personal file is now the newest. */
  lemma WorkSwitchLeavesDetectorOnPersonal(files: Store, answer: Reply, probe: Probe, launchFails: nat -> bool)
    requires answer.Decided? && answer.proceed && Capture(probe).Some?
    requires probe.mtime >= OrZero(MtimeOf(files, Work))
    ensures ModeOf(WorkSwitch(files, answer, probe, launchFails).files) == Personal
  {
    ModeAfterSave(files, Personal, Capture(probe).value, probe.mtime);
  }
}
