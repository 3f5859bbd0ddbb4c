/** The commands the two switch scripts issue to the file system, the
    browser and the operating system, recorded in the order issued, and the
    facts about such records that the scripts' properties are stated with. */
module Trace {
  import opened ProfileStore

  /** One outward action: writing a slot's state file, `close every window`,
      `make new window` + `activate`, `open_new_tab(url)`, `open -a app`. */
  datatype Effect = Save(slot: Slot) | CloseAll | NewWindow | OpenTab(url: string) | Launch(app: string)

  /** How a run of either script ends. `Aborted` is the top-level
      `except Exception` handler: the run stops where it is, with no rollback. */
  datatype Outcome = Cancelled | Aborted | SandboxStarted | Restored | FreshSession

  /** The whole observable result of one run: how it ended, the state files
      afterwards, the effects issued, and the apps reported as
      "Could not open". */
  datatype Run = Run(outcome: Outcome, files: Store, effects: seq<Effect>, failed: seq<string>)

  /** The order of a switch: save, then close, then open (window or tabs),
      then launch apps. */
  function Phase(e: Effect): nat {
    match e
    case Save(_) => 0
    case CloseAll => 1
    case NewWindow => 2
    case OpenTab(_) => 2
    case Launch(_) => 3
  }

  /** Every effect of an earlier phase comes before every effect of a later one. */
  predicate Phased(t: seq<Effect>) {
    forall i, j :: 0 <= i < j < |t| ==> Phase(t[i]) <= Phase(t[j])
  }

  /** The slots written, in order. */
  function SavedSlots(t: seq<Effect>): seq<Slot> {
    if t == [] then [] else (if t[0].Save? then [t[0].slot] else []) + SavedSlots(t[1..])
  }

  /** The URLs opened as tabs, in order. */
  function Opened(t: seq<Effect>): seq<string> {
    if t == [] then [] else (if t[0].OpenTab? then [t[0].url] else []) + Opened(t[1..])
  }

  /** The apps a launch was attempted for, in order. */
  function Launched(t: seq<Effect>): seq<string> {
    if t == [] then [] else (if t[0].Launch? then [t[0].app] else []) + Launched(t[1..])
  }

  /** How many times all browser windows were closed. */
  function Closes(t: seq<Effect>): nat {
    if t == [] then 0 else (if t[0].CloseAll? then 1 else 0) + Closes(t[1..])
  }

  /** One `open_new_tab` per URL, in the order given. */
  function OpenTabs(urls: seq<string>): (t: seq<Effect>)
    ensures |t| == |urls|
    ensures forall i :: 0 <= i < |urls| ==> t[i] == OpenTab(urls[i])
  {
    if urls == [] then [] else OpenTabs(urls[..|urls| - 1]) + [OpenTab(urls[|urls| - 1])]
  }

  /** One `open -a` per app, in the order given. */
  function Launches(apps: seq<string>): (t: seq<Effect>)
    ensures |t| == |apps|
    ensures forall i :: 0 <= i < |apps| ==> t[i] == Launch(apps[i])
  {
    if apps == [] then [] else Launches(apps[..|apps| - 1]) + [Launch(apps[|apps| - 1])]
  }

  /** The apps whose launch raised, given which attempts (by position in
      `apps`) raise: those apps, in order, each once per failing attempt.
      `FailuresReportsEvery` shows every failing attempt is reported. */
  function Failures(apps: seq<string>, fails: nat -> bool): (r: seq<string>)
    ensures |r| <= |apps|
    ensures forall x :: x in r ==> x in apps
    ensures (forall i :: 0 <= i < |apps| ==> !fails(i)) ==> r == []
  {
    if apps == [] then []
    else
      var n := |apps| - 1;
      var earlier := Failures(apps[..n], fails);
      assert forall x :: x in apps[..n] ==> x in apps;
      earlier + (if fails(n) then [apps[n]] else [])
  }

  /** Every attempt that raises is reported; when all of them raise, every
      app is reported, in order. */
  lemma {:induction false} FailuresReportsEvery(apps: seq<string>, fails: nat -> bool)
    ensures forall i :: 0 <= i < |apps| && fails(i) ==> apps[i] in Failures(apps, fails)
    ensures (forall i :: 0 <= i < |apps| ==> fails(i)) ==> Failures(apps, fails) == apps
  {
    if apps != [] {
      var n := |apps| - 1;
      FailuresReportsEvery(apps[..n], fails);
      assert forall i :: 0 <= i < n ==> apps[..n][i] == apps[i];
      assert apps == apps[..n] + [apps[n]];
    }
  }

  /** The projections distribute over concatenation. */
  lemma ProjectionsAppend(a: seq<Effect>, b: seq<Effect>)
    ensures SavedSlots(a + b) == SavedSlots(a) + SavedSlots(b)
    ensures Opened(a + b) == Opened(a) + Opened(b)
    ensures Launched(a + b) == Launched(a) + Launched(b)
    ensures Closes(a + b) == Closes(a) + Closes(b)
  {
    SavedSlotsAppend(a, b);
    OpenedAppend(a, b);
    LaunchedAppend(a, b);
    ClosesAppend(a, b);
  }

  lemma {:induction false} SavedSlotsAppend(a: seq<Effect>, b: seq<Effect>)
    ensures SavedSlots(a + b) == SavedSlots(a) + SavedSlots(b)
  {
    if a == [] {
      assert a + b == b;
    } else {
      assert (a + b)[0] == a[0];
      assert (a + b)[1..] == a[1..] + b;
      SavedSlotsAppend(a[1..], b);
    }
  }

  lemma {:induction false} OpenedAppend(a: seq<Effect>, b: seq<Effect>)
    ensures Opened(a + b) == Opened(a) + Opened(b)
  {
    if a == [] {
      assert a + b == b;
    } else {
      assert (a + b)[0] == a[0];
      assert (a + b)[1..] == a[1..] + b;
      OpenedAppend(a[1..], b);
    }
  }

  lemma {:induction false} LaunchedAppend(a: seq<Effect>, b: seq<Effect>)
    ensures Launched(a + b) == Launched(a) + Launched(b)
  {
    if a == [] {
      assert a + b == b;
    } else {
      assert (a + b)[0] == a[0];
      assert (a + b)[1..] == a[1..] + b;
      LaunchedAppend(a[1..], b);
    }
  }

  lemma {:induction false} ClosesAppend(a: seq<Effect>, b: seq<Effect>)
    ensures Closes(a + b) == Closes(a) + Closes(b)
  {
    if a == [] {
      assert a + b == b;
    } else {
      assert (a + b)[0] == a[0];
      assert (a + b)[1..] == a[1..] + b;
      ClosesAppend(a[1..], b);
    }
  }

  /** A run of tab openings opens exactly `urls` and does nothing else. */
  lemma {:induction false} OpenTabsProjections(urls: seq<string>)
    ensures Opened(OpenTabs(urls)) == urls
    ensures SavedSlots(OpenTabs(urls)) == [] && Launched(OpenTabs(urls)) == [] && Closes(OpenTabs(urls)) == 0
  {
    if urls != [] {
      var n := |urls| - 1;
      OpenTabsProjections(urls[..n]);
      ProjectionsAppend(OpenTabs(urls[..n]), [OpenTab(urls[n])]);
      assert urls == urls[..n] + [urls[n]];
    }
  }

  /** A run of launches attempts exactly `apps` and does nothing else. */
  lemma {:induction false} LaunchesProjections(apps: seq<string>)
    ensures Launched(Launches(apps)) == apps
    ensures SavedSlots(Launches(apps)) == [] && Opened(Launches(apps)) == [] && Closes(Launches(apps)) == 0
  {
    if apps != [] {
      var n := |apps| - 1;
      LaunchesProjections(apps[..n]);
      ProjectionsAppend(Launches(apps[..n]), [Launch(apps[n])]);
      assert apps == apps[..n] + [apps[n]];
    }
  }

  /** The shape of a restore: save, close, one tab per URL, one launch per
      app. It is phased: the save comes before the close, the close before
      every tab and launch, and every tab before every launch. */
  lemma RestorePhased(slot: Slot, urls: seq<string>, apps: seq<string>)
    ensures Phased([Save(slot), CloseAll] + OpenTabs(urls) + Launches(apps))
  {
    var t := [Save(slot), CloseAll] + OpenTabs(urls) + Launches(apps);
    assert forall i :: 0 <= i < |t| ==>
      Phase(t[i]) == if i == 0 then 0 else if i == 1 then 1 else if i < 2 + |urls| then 2 else 3;
  }

  /** A restore saves one slot, closes once, and opens and launches exactly
      the given lists, in order. */
  lemma RestoreProjections(slot: Slot, urls: seq<string>, apps: seq<string>)
    ensures var t := [Save(slot), CloseAll] + OpenTabs(urls) + Launches(apps);
      && SavedSlots(t) == [slot] && Closes(t) == 1
      && Opened(t) == urls && Launched(t) == apps
  {
    OpenTabsProjections(urls);
    LaunchesProjections(apps);
    ProjectionsAppend([Save(slot)], [CloseAll]);
    ProjectionsAppend([Save(slot), CloseAll], OpenTabs(urls));
    ProjectionsAppend([Save(slot), CloseAll] + OpenTabs(urls), Launches(apps));
  }
}
