/** The Mode Detector: `detect_current_mode` in sandbox.py, which guesses the
    current profile from the two state files' modification times. */
module ModeDetector {
  import opened Wrappers
  import opened ProfileStore

  /** `os.path.getmtime(f) if os.path.exists(f) else 0`. */
  function OrZero(mtime: Option<int>): int {
    mtime.GetOr(0)
  }

  /** The mode for the two files' modification times (`None` for a missing
      file), case by case: with both files present the work file must be
      strictly newer; a missing file counts as time 0, so a lone work file
      wins when its time is positive and a lone personal file loses only when
      its time is negative; with neither file the mode is personal. */
  function DetectMode(work: Option<int>, personal: Option<int>): (mode: Slot)
    ensures mode == Work <==>
      || (work.Some? && personal.Some? && work.value > personal.value)
      || (work.Some? && personal.None? && work.value > 0)
      || (work.None? && personal.Some? && personal.value < 0)
  {
    if OrZero(work) > OrZero(personal) then Work else Personal
  }

  /** `detect_current_mode()` on the files as they are in `store`. */
  function ModeOf(store: Store): Slot {
    DetectMode(MtimeOf(store, Work), MtimeOf(store, Personal))
  }

  /** For modification times that are not before the epoch: `work` exactly
      when the work file exists and is strictly newer than the personal file
      (or the personal file is missing). */
  lemma WorkIffStrictlyNewer(work: Option<int>, personal: Option<int>)
    requires work.Some? ==> work.value >= 0
    requires personal.Some? ==> personal.value >= 0
    ensures DetectMode(work, personal) == Work <==>
      work.Some? && (personal.None? ==> work.value > 0) && (personal.Some? ==> work.value > personal.value)
  {
  }

  /** A tie, two missing files, or a newer personal file all give `personal`
      (a lone personal file too, unless its time is before the epoch). */
  lemma PersonalByDefault(work: Option<int>, personal: Option<int>)
    requires (work.None? && OrZero(personal) >= 0) || (work.Some? && personal.Some? && work.value <= personal.value)
    ensures DetectMode(work, personal) == Personal
  {
  }

  /** After a save, the detector names the saved slot exactly when the new
      modification time beats the other file's in the detector's comparison:
      strictly for the work slot, non-strictly for the personal slot, since
      ties go to personal. */
  lemma ModeAfterSave(store: Store, slot: Slot, snap: Snapshot, mtime: int)
    ensures var other := if slot == Work then Personal else Work;
      var t := OrZero(MtimeOf(store, other));
      ModeOf(Saved(store, slot, snap, mtime)) == slot <==>
        (if slot == Work then mtime > t else mtime >= t)
  {
    var r := Saved(store, slot, snap, mtime);
    assert MtimeOf(r, slot) == Some(mtime);
    if slot == Work {
      assert MtimeOf(r, Personal) == MtimeOf(store, Personal);
    } else {
      assert MtimeOf(r, Work) == MtimeOf(store, Work);
    }
  }

  /** With a clock that has not gone backwards (the new modification time is
      at least both old ones), saving to the detected slot keeps the detected
      mode. */
  lemma SaveToDetectedSlotKeepsMode(store: Store, snap: Snapshot, mtime: int)
    requires mtime >= OrZero(MtimeOf(store, Work)) && mtime >= OrZero(MtimeOf(store, Personal))
    ensures ModeOf(Saved(store, ModeOf(store), snap, mtime)) == ModeOf(store)
  {
    ModeAfterSave(store, ModeOf(store), snap, mtime);
  }
}
