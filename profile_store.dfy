/** The Profile Store: the two state files `~/.work_profile_state.json` and
    `~/.personal_profile_state.json`, and `save_current_state`, which both
    scripts define identically. The files are modelled by what they decode to
    and their modification time, not by their JSON bytes. */
module ProfileStore {
  import opened Wrappers
  import opened OutputList
  import opened Environment

  /** The two profiles; each has one state file. */
  datatype Slot = Work | Personal

  /** The record `save_current_state` builds before writing it. */
  datatype Snapshot = Snapshot(timestamp: string, runningApps: seq<string>, chromeTabs: seq<string>)

  /** What a state file decodes to: an object whose three keys may each be
      absent, or something that `json.load` rejects or that is not an object. */
  datatype Content =
    | Stored(timestamp: Option<string>, runningApps: Option<seq<string>>, chromeTabs: Option<seq<string>>)
    | Unreadable

  /** A state file on disk: its content and its modification time. */
  datatype StateFile = StateFile(content: Content, mtime: int)

  /** A slot is in the map exactly when its file exists. */
  type Store = map<Slot, StateFile>

  /** What the operating system provides during one `save_current_state`: the
      answers of the two AppleScript queries, the text of
      `datetime.now().isoformat()` and the modification time the write gives
      the file. */
  datatype Probe = Probe(appsQuery: CommandResult, tabsQuery: CommandResult, timestamp: string, mtime: int)

  /** The snapshot `save_current_state` builds, or `None` when building it
      raises (only the process query can raise; the tab query is caught). */
  function Capture(probe: Probe): (snap: Option<Snapshot>)
    ensures snap.None? <==> probe.appsQuery.Raised?
    ensures snap.Some? ==> snap.value.timestamp == probe.timestamp
    ensures snap.Some? ==> snap.value.runningApps == ParseList(probe.appsQuery.stdout)
    ensures snap.Some? ==> snap.value.chromeTabs == ChromeTabs(probe.tabsQuery)
    ensures snap.Some? ==> forall i :: 0 <= i < |snap.value.runningApps| ==> IsItem(snap.value.runningApps[i])
  {
    match RunningApps(probe.appsQuery)
    case None => None
    case Some(apps) => Some(Snapshot(probe.timestamp, apps, ChromeTabs(probe.tabsQuery)))
  }

  /** The modification time of a slot's file, `None` when it does not exist. */
  function MtimeOf(store: Store, slot: Slot): Option<int> {
    if slot in store then Some(store[slot].mtime) else None
  }

  /** The result of reading a slot for restoring: no file, a file that cannot
      be decoded, or the two lists to restore. */
  datatype Loaded = Missing | Corrupt | Restorable(runningApps: seq<string>, chromeTabs: seq<string>)

  /** Reading a slot the way `load_work_state` does: `os.path.exists`, then
      `json.load`, then `state.get(key, [])` for each list. */
  function Load(store: Store, slot: Slot): (r: Loaded)
    ensures r.Missing? <==> slot !in store
    ensures r.Corrupt? <==> slot in store && store[slot].content.Unreadable?
    ensures r.Restorable? ==> var c := store[slot].content;
      && r.runningApps == c.runningApps.GetOr([])
      && r.chromeTabs == c.chromeTabs.GetOr([])
    ensures r.Restorable? && store[slot].content.runningApps.None? ==> r.runningApps == []
    ensures r.Restorable? && store[slot].content.chromeTabs.None? ==> r.chromeTabs == []
  {
    if slot !in store then Missing
    else match store[slot].content
      case Unreadable => Corrupt
      case Stored(_, apps, tabs) => Restorable(apps.GetOr([]), tabs.GetOr([]))
  }

  /** The store after writing `snap` to `slot`'s file at time `mtime`: the
      file's previous content is replaced, the other file is untouched. */
  function Saved(store: Store, slot: Slot, snap: Snapshot, mtime: int): (r: Store)
    ensures slot in r
    ensures r[slot].content == Stored(Some(snap.timestamp), Some(snap.runningApps), Some(snap.chromeTabs))
    ensures MtimeOf(r, slot) == Some(mtime)
    ensures forall s :: s != slot ==> (s in r <==> s in store) && (s in r ==> r[s] == store[s])
  {
    store[slot := StateFile(Stored(Some(snap.timestamp), Some(snap.runningApps), Some(snap.chromeTabs)), mtime)]
  }

  /** Save-then-load round trip: reading back the slot just written gives the
      saved lists, in order and unchanged; reading the other slot gives what
      it gave before. */
  lemma SaveLoadRoundTrip(store: Store, slot: Slot, snap: Snapshot, mtime: int, other: Slot)
    requires other != slot
    ensures Load(Saved(store, slot, snap, mtime), slot) == Restorable(snap.runningApps, snap.chromeTabs)
    ensures Load(Saved(store, slot, snap, mtime), other) == Load(store, other)
    ensures MtimeOf(Saved(store, slot, snap, mtime), other) == MtimeOf(store, other)
  {
  }
}
