/** Repinning a subject's artifacts, and taking it back (`pin_artifacts`, src/branch_refresh.py). */
module Artifacts {
  import opened Seqs

  type Path = nat
  type Bytes = seq<nat>

  datatype File = Regular(bytes: Bytes, mode: nat) | Link

  type Files = map<Path, File>

  /** The pre-image of a file, and the bytes that replace it. */
  datatype Snapshot = Snapshot(path: Path, original: Bytes, mode: nat, written: Bytes)

  /** A write that stops: it has emptied the file and stored `stored` bytes, and raises. */
  datatype Fault = NoFault | Stops(at: nat, stored: nat)

  function Original(s: Snapshot): File { Regular(s.original, s.mode) }

  function Pinned(s: Snapshot): File { Regular(s.written, s.mode) }

  predicate Holds(fs: Files, s: Snapshot, f: File) { s.path in fs && fs[s.path] == f }

  predicate Apart(snaps: seq<Snapshot>) { forall i, j | 0 <= i < j < |snaps| :: snaps[i].path != snaps[j].path }

  /** `fs` and `now` differ at most at the paths of `snaps`. */
  predicate SameElsewhere(fs: Files, now: Files, snaps: seq<Snapshot>) {
    && now.Keys == fs.Keys
    && forall p | p in fs && (forall i | 0 <= i < |snaps| :: snaps[i].path != p) :: now[p] == fs[p]
  }

  /** What restoring does to one snapshot: exactly what is as it was pinned goes back. */
  predicate Restored(fs: Files, now: Files, s: Snapshot) {
    if Holds(fs, s, Pinned(s)) then Holds(now, s, Original(s))
    else s.path in fs ==> Holds(now, s, fs[s.path])
  }

  /** What a pin that failed leaves of one snapshot. */
  predicate TakenBack(fs: Files, now: Files, s: Snapshot) {
    && (Holds(fs, s, Original(s)) ==> Holds(now, s, Original(s)))
    && (s.path in fs && fs[s.path] != Original(s) && fs[s.path] != Pinned(s) ==> Holds(now, s, fs[s.path]))
  }

  /** The write that stops leaves bytes that are neither the old nor the new ones. */
  predicate Torn(snaps: seq<Snapshot>, fault: Fault) {
    && fault.Stops? && fault.at < |snaps|
    && fault.stored < |snaps[fault.at].written|
    && snaps[fault.at].written[..fault.stored] != snaps[fault.at].original
  }

  function Part(s: Snapshot, stored: nat): File {
    Regular(if stored <= |s.written| then s.written[..stored] else s.written, s.mode)
  }

  class Content {
    var files: Files

    /** `restore_artifacts` */
    method Restore(snaps: seq<Snapshot>)
      requires Apart(snaps)
      modifies this
      ensures SameElsewhere(old(files), files, snaps)
      ensures AllRestored(old(files), files, snaps)
    {
      for i := 0 to |snaps|
        invariant SameElsewhere(old(files), files, snaps)
        invariant forall j | 0 <= j < i :: Restored(old(files), files, snaps[j])
        invariant forall j | i <= j < |snaps| && snaps[j].path in files :: files[snaps[j].path] == old(files)[snaps[j].path]
      {
        var s := snaps[i];
        if Holds(files, s, Pinned(s)) {
          files := files[s.path := Original(s)];
          assert files.Keys == old(files).Keys;
        }
      }
    }

    /** The first loop: pre-images of the regular files among `paths`; a link or undecodable bytes stop it. */
    method Snapshots(paths: seq<Path>, rewrite: Bytes -> Option<Bytes>) returns (ok: bool, snaps: seq<Snapshot>)
      requires forall i, j | 0 <= i < j < |paths| :: paths[i] != paths[j]
      ensures Apart(snaps)
      ensures forall i | 0 <= i < |snaps| :: Holds(files, snaps[i], Original(snaps[i])) && rewrite(snaps[i].original) == Some(snaps[i].written)
      ensures ok <==> Readable(files, paths, rewrite)
      ensures ok ==> forall p | p in paths && p in files :: exists i | 0 <= i < |snaps| :: snaps[i].path == p
    {
      ok, snaps := true, [];
      for k := 0 to |paths|
        invariant ok && Apart(snaps)
        invariant forall i | 0 <= i < |snaps| :: Holds(files, snaps[i], Original(snaps[i])) && rewrite(snaps[i].original) == Some(snaps[i].written)
        invariant forall i | 0 <= i < |snaps| :: snaps[i].path in paths[..k]
        invariant forall p | p in paths[..k] && p in files :: files[p].Regular? && rewrite(files[p].bytes).Some?
        invariant forall p | p in paths[..k] && p in files :: exists i | 0 <= i < |snaps| :: snaps[i].path == p
      {
        var p := paths[k];
        if p in files {
          if files[p].Link? { return false, snaps; }
          var written := rewrite(files[p].bytes);
          if written.None? { return false, snaps; }
          ghost var before := snaps;
          snaps := snaps + [Snapshot(p, files[p].bytes, files[p].mode, written.value)];
          assert snaps[|before|].path == p;
          forall q | q in paths[..k] && q in files ensures exists i | 0 <= i < |snaps| :: snaps[i].path == q {
            var i :| 0 <= i < |before| && before[i].path == q;
            assert snaps[i].path == q;
          }
        }
      }
      assert paths[..|paths|] == paths;
    }

    /** The second loop: each file must still be its pre-image; the first that is not, or whose write stops, ends
        it. */
    method WriteAll(snaps: seq<Snapshot>, fault: Fault) returns (ok: bool, ghost at: nat)
      requires Apart(snaps)
      modifies this
      ensures SameElsewhere(old(files), files, snaps)
      ensures if ok then AllPinned(files, snaps) else Stopped(old(files), files, snaps, fault, at)
      ensures ok ==> !(fault.Stops? && fault.at < |snaps|)
    {
      ghost var was := files;
      for i := 0 to |snaps|
        invariant SameElsewhere(was, files, snaps)
        invariant Written(was, files, snaps, i)
        invariant fault.Stops? ==> fault.at >= i
      {
        var s := snaps[i];
        ghost var before := files;
        if !Holds(files, s, Original(s)) { return false, i; }
        var stops := fault.Stops? && fault.at == i;
        files := files[s.path := if stops then Part(s, fault.stored) else Pinned(s)];
        WriteElsewhere(was, before, files, snaps, i);
        if stops { return false, i; }
        WriteOne(was, before, files, snaps, i);
      }
      return true, |snaps|;
    }

    /** `pin_artifacts`, with what others do between the two loops. On success every pre-image is replaced. On
        failure every file is given its own bytes back, and what others changed is left alone, except at a write
        that stopped part-way; undisturbed, the files are as they were exactly when no write was torn. */
    method Pin(paths: seq<Path>, rewrite: Bytes -> Option<Bytes>, meanwhile: Files, fault: Fault)
      returns (ok: bool, snaps: seq<Snapshot>)
      requires forall i, j | 0 <= i < j < |paths| :: paths[i] != paths[j]
      modifies this
      ensures SameElsewhere(meanwhile, files, snaps) && Apart(snaps)
      ensures AllOriginal(old(files), snaps)
      ensures ok ==> AllPinned(files, snaps)
      ensures !ok ==> AllTakenBack(meanwhile, files, snaps, fault)
      ensures !ok && meanwhile == old(files) ==>
        (files == old(files) <==> !(Readable(old(files), paths, rewrite) && Torn(snaps, fault)))
    {
      ok, snaps := Snapshots(paths, rewrite);
      assert AllOriginal(files, snaps);
      hide AllOriginal, AllPinned, AllRestored, AllTakenBack, Stopped, Readable, SameElsewhere, Torn, Apart;
      files := meanwhile;
      ElsewhereSame(files, snaps);
      if !ok {
        Restore(snaps);
        BackFromStart(meanwhile, files, snaps, fault);
        return;
      }
      ghost var at;
      ok, at := WriteAll(snaps, fault);
      if !ok {
        ghost var stopped := files;
        Restore(snaps);
        ElsewhereTrans(meanwhile, stopped, files, snaps);
        AfterStop(meanwhile, stopped, files, snaps, fault, at);
      }
    }
  }

  predicate AllOriginal(fs: Files, snaps: seq<Snapshot>) { forall i | 0 <= i < |snaps| :: Holds(fs, snaps[i], Original(snaps[i])) }

  predicate AllPinned(fs: Files, snaps: seq<Snapshot>) { forall i | 0 <= i < |snaps| :: Holds(fs, snaps[i], Pinned(snaps[i])) }

  predicate AllRestored(fs: Files, now: Files, snaps: seq<Snapshot>) { forall i | 0 <= i < |snaps| :: Restored(fs, now, snaps[i]) }

  /** What others changed is left alone and the rest taken back, the torn write apart. */
  predicate AllTakenBack(fs: Files, now: Files, snaps: seq<Snapshot>, fault: Fault) {
    forall i | 0 <= i < |snaps| && !(Torn(snaps, fault) && fault.at == i) :: TakenBack(fs, now, snaps[i])
  }

  predicate Stopped(fs: Files, now: Files, snaps: seq<Snapshot>, fault: Fault, at: nat) {
    && at < |snaps| && StoppedAt(fs, now, snaps[at], fault, at)
    && (forall j | 0 <= j < at :: Holds(fs, snaps[j], Original(snaps[j])) && Holds(now, snaps[j], Pinned(snaps[j])))
    && (forall j | at < j < |snaps| :: Same(fs, now, snaps[j]))
  }

  predicate Same(fs: Files, now: Files, s: Snapshot) {
    (s.path in now <==> s.path in fs) && (s.path in fs ==> now[s.path] == fs[s.path])
  }

  /** The second loop has written the first `i` files and nothing else. */
  predicate Written(fs: Files, now: Files, snaps: seq<Snapshot>, i: nat) {
    && i <= |snaps|
    && (forall j | 0 <= j < i :: Holds(fs, snaps[j], Original(snaps[j])) && Holds(now, snaps[j], Pinned(snaps[j])))
    && (forall j | i <= j < |snaps| :: Same(fs, now, snaps[j]))
  }

  lemma WriteElsewhere(fs: Files, before: Files, now: Files, snaps: seq<Snapshot>, i: nat)
    requires SameElsewhere(fs, before, snaps) && i < |snaps| && snaps[i].path in before
    requires snaps[i].path in now && now == before[snaps[i].path := now[snaps[i].path]]
    ensures SameElsewhere(fs, now, snaps)
  {}

  lemma WriteOne(fs: Files, before: Files, now: Files, snaps: seq<Snapshot>, i: nat)
    requires Apart(snaps) && Written(fs, before, snaps, i) && i < |snaps| && Holds(before, snaps[i], Original(snaps[i]))
    requires now == before[snaps[i].path := Pinned(snaps[i])]
    ensures Written(fs, now, snaps, i + 1)
  {}

  lemma ElsewhereTrans(a: Files, b: Files, c: Files, snaps: seq<Snapshot>)
    requires SameElsewhere(a, b, snaps) && SameElsewhere(b, c, snaps)
    ensures SameElsewhere(a, c, snaps)
  {}

  lemma AfterStop(fs: Files, stopped: Files, now: Files, snaps: seq<Snapshot>, fault: Fault, at: nat)
    requires SameElsewhere(fs, now, snaps) && Stopped(fs, stopped, snaps, fault, at) && AllRestored(stopped, now, snaps)
    ensures AllTakenBack(fs, now, snaps, fault)
    ensures AllOriginal(fs, snaps) ==> (now == fs <==> !Torn(snaps, fault))
  {
    forall i | 0 <= i < |snaps| && !(Torn(snaps, fault) && fault.at == i) ensures TakenBack(fs, now, snaps[i]) {
      BackOne(fs, stopped, now, snaps, fault, at, i);
    }
    if Torn(snaps, fault) { Stays(fs, stopped, now, snaps, fault, at); }
    if AllOriginal(fs, snaps) {
      Undisturbed(fs, now, snaps);
      hide SameElsewhere, Stopped, Restored, Torn;
      if !Torn(snaps, fault) {
        forall i | 0 <= i < |snaps| ensures Holds(now, snaps[i], Original(snaps[i])) { assert TakenBack(fs, now, snaps[i]); }
      }
    }
  }

  /** Every one of the paths that exists is a regular file the rewriting can decode. */
  predicate Readable(fs: Files, paths: seq<Path>, rewrite: Bytes -> Option<Bytes>) {
    forall p | p in paths && p in fs :: fs[p].Regular? && rewrite(fs[p].bytes).Some?
  }

  predicate StoppedAt(fs: Files, now: Files, s: Snapshot, fault: Fault, at: nat) {
    if Holds(fs, s, Original(s)) then fault.Stops? && fault.at == at && Holds(now, s, Part(s, fault.stored))
    else Same(fs, now, s)
  }

  lemma ElsewhereSame(fs: Files, snaps: seq<Snapshot>)
    ensures SameElsewhere(fs, fs, snaps)
  {}

  lemma BackFromStart(fs: Files, now: Files, snaps: seq<Snapshot>, fault: Fault)
    requires SameElsewhere(fs, now, snaps) && AllRestored(fs, now, snaps)
    ensures AllTakenBack(fs, now, snaps, fault)
    ensures AllOriginal(fs, snaps) ==> now == fs
  {
    if AllOriginal(fs, snaps) {
      forall p | p in fs ensures now[p] == fs[p] {
        if i :| 0 <= i < |snaps| && snaps[i].path == p { assert Restored(fs, now, snaps[i]); }
      }
    }
  }

  lemma BackOne(fs: Files, stopped: Files, now: Files, snaps: seq<Snapshot>, fault: Fault, at: nat, i: nat)
    requires i < |snaps| && at < |snaps| && Restored(stopped, now, snaps[i])
    requires StoppedAt(fs, stopped, snaps[at], fault, at)
    requires i < at ==> Holds(fs, snaps[i], Original(snaps[i])) && Holds(stopped, snaps[i], Pinned(snaps[i]))
    requires i > at ==> Same(fs, stopped, snaps[i])
    requires !(Torn(snaps, fault) && fault.at == i)
    ensures TakenBack(fs, now, snaps[i])
  {
    if i == at && fault.Stops? && fault.at == i && fault.stored >= |snaps[i].written| {
      assert Part(snaps[i], fault.stored) == Pinned(snaps[i]);
    }
  }

  lemma Stays(fs: Files, stopped: Files, now: Files, snaps: seq<Snapshot>, fault: Fault, at: nat)
    requires at < |snaps| && Torn(snaps, fault) && Restored(stopped, now, snaps[at])
    requires StoppedAt(fs, stopped, snaps[at], fault, at)
    ensures Holds(fs, snaps[at], Original(snaps[at])) ==> fault.at == at && !Holds(now, snaps[at], Original(snaps[at]))
  {
    if Holds(fs, snaps[at], Original(snaps[at])) {
      var s := snaps[at];
      assert Part(s, fault.stored).bytes == s.written[..fault.stored];
      assert |s.written[..fault.stored]| != |s.written|;
    }
  }

  lemma Undisturbed(fs: Files, now: Files, snaps: seq<Snapshot>)
    requires SameElsewhere(fs, now, snaps)
    requires forall i | 0 <= i < |snaps| :: Holds(fs, snaps[i], Original(snaps[i]))
    ensures now == fs <==> forall i | 0 <= i < |snaps| :: Holds(now, snaps[i], Original(snaps[i]))
  {
    if forall i | 0 <= i < |snaps| :: Holds(now, snaps[i], Original(snaps[i])) {
      forall p | p in fs ensures now[p] == fs[p] {
        if i :| 0 <= i < |snaps| && snaps[i].path == p { assert Holds(now, snaps[i], Original(snaps[i])); }
      }
    }
  }

  /** A pin that succeeded and is then taken back, undisturbed, leaves every file as it was. */
  lemma PinRestoreRoundTrip(fs: Files, pinned: Files, now: Files, snaps: seq<Snapshot>)
    requires AllOriginal(fs, snaps) && SameElsewhere(fs, pinned, snaps) && AllPinned(pinned, snaps)
    requires SameElsewhere(pinned, now, snaps) && AllRestored(pinned, now, snaps)
    ensures now == fs
  {
    ElsewhereTrans(fs, pinned, now, snaps);
    hide SameElsewhere;
    forall i | 0 <= i < |snaps| ensures Holds(now, snaps[i], Original(snaps[i])) {
      assert Restored(pinned, now, snaps[i]) && Holds(pinned, snaps[i], Pinned(snaps[i]));
    }
    Undisturbed(fs, now, snaps);
  }

  /** A write that stops half-way through two bytes is torn. */
  lemma TornWrite()
    ensures Torn([Snapshot(0, [1, 2], 0, [3, 4])], Stops(0, 1))
  { assert [3, 4][..1] == [3]; }
}
