/** sandbox.py: `start_sandbox`, which saves the current session to the slot
    of the detected mode, closes every browser window and opens one blank
    window. Nothing of the sandbox session itself is saved. */
module Sandbox {
  import opened Wrappers
  import opened ProfileStore
  import opened ModeDetector
  import opened Confirmation
  import opened Trace
  import opened Host

  /** What one run of `start_sandbox` does, given the state files, how the
      prompt ended (`Decision` of the lines the user types), and what the OS
      answers during the save. */
  function SandboxRun(files: Store, answer: Reply, probe: Probe): Run {
    match answer
    case Exhausted => Run(Aborted, files, [], [])
    case Decided(proceed, _) =>
      if !proceed then Run(Cancelled, files, [], [])
      else
        var mode := ModeOf(files);
        match Capture(probe)
        case None => Run(Aborted, files, [], [])
        case Some(snap) =>
          Run(SandboxStarted, Saved(files, mode, snap, probe.mtime), [Save(mode), CloseAll, NewWindow], [])
  }

  /** `start_sandbox()`. `announced` is the mode named in the prompt, detected
      before the first line is read. */
  method StartSandbox(w: Workstation, answers: seq<string>, probe: Probe) returns (outcome: Outcome, announced: Slot)
    modifies w
    ensures announced == ModeOf(old(w.files))
    ensures var r := SandboxRun(old(w.files), Decision(answers), probe);
      && outcome == r.outcome
      && w.files == r.files
      && w.trace == old(w.trace) + r.effects
  {
    announced := ModeOf(w.files);
    var c := GetConfirmation(answers);
    if c.Exhausted? {
      return Aborted, announced;
    }
    if !c.proceed {
      return Cancelled, announced;
    }
    var mode := ModeOf(w.files);
    var saved := w.SaveCurrentState(mode, probe);
    if !saved {
      return Aborted, announced;
    }
    w.Issue(CloseAll);
    w.Issue(NewWindow);
    return SandboxStarted, announced;
  }

  /** Cancelling, or running out of input before deciding, changes nothing
      and issues nothing; the run is cancelled exactly when the first
      decisive answer is a no. */
  lemma SandboxDeclineChangesNothing(files: Store, answer: Reply, probe: Probe)
    ensures var r := SandboxRun(files, answer, probe);
      && (r.outcome == Cancelled <==> answer.Decided? && !answer.proceed)
      && (r.outcome != SandboxStarted ==> r.effects == [] && r.files == files)
  {
  }

  /** On acceptance the session goes to the detected slot (the one the
      prompt named): exactly one slot is written, it reads back as the
      captured lists, the other slot is untouched, and the effects are save,
      close, new window, with no tab opened and no app launched. */
  lemma SandboxSavesDetectedSlot(files: Store, answer: Reply, probe: Probe)
    requires SandboxRun(files, answer, probe).outcome == SandboxStarted
    ensures var r := SandboxRun(files, answer, probe);
      var mode := ModeOf(files);
      var other := if mode == Work then Personal else Work;
      var snap := Capture(probe).value;
      && r.effects == [Save(mode), CloseAll, NewWindow]
      && SavedSlots(r.effects) == [mode]
      && Phased(r.effects)
      && Opened(r.effects) == [] && Launched(r.effects) == []
      && Load(r.files, mode) == Restorable(snap.runningApps, snap.chromeTabs)
      && (other in r.files <==> other in files)
      && (other in files ==> r.files[other] == files[other])
  {
    var mode := ModeOf(files);
    var snap := Capture(probe).value;
    SaveLoadRoundTrip(files, mode, snap, probe.mtime, if mode == Work then Personal else Work);
    ProjectionsAppend([Save(mode)], [CloseAll, NewWindow]);
    ProjectionsAppend([CloseAll], [NewWindow]);
  }

  /** The run starts the sandbox exactly when the first decisive answer is a
      yes and the app query does not raise. */
  lemma SandboxStartsIff(files: Store, answer: Reply, probe: Probe)
    ensures SandboxRun(files, answer, probe).outcome == SandboxStarted <==>
      answer.Decided? && answer.proceed && !probe.appsQuery.Raised?
  {
  }

  /** With a clock that has not gone backwards, the detector names the same
      mode after a sandbox switch as before it, so the next switch saves to
      the same slot again. */
  lemma SandboxKeepsMode(files: Store, answer: Reply, probe: Probe)
    requires probe.mtime >= OrZero(MtimeOf(files, Work)) && probe.mtime >= OrZero(MtimeOf(files, Personal))
    ensures ModeOf(SandboxRun(files, answer, probe).files) == ModeOf(files)
  {
    if SandboxRun(files, answer, probe).outcome == SandboxStarted {
      SaveToDetectedSlotKeepsMode(files, Capture(probe).value, probe.mtime);
    }
  }
}
