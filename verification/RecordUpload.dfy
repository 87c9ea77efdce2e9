/** uploadFiles of internal/collector/upload.go: one record's files while other threads update its state
    file.

    Before each of the uploader's operations on the state file the others' updates take effect; by
    `RunsAreSerial` this is every way in which they can interleave. Only one thread uploads a record,
    so the others never report progress or finish it. The collector may delete an expired record at any
    time between two of its operations. */
module RecordUpload {
  import opened Wrappers
  import opened RecordCache

  /** How one upload ends; `Stops` are the errors that end the whole loop. */
  datatype UploadEnd = Uploaded | Fails | Stops

  /** A file of the record and what happens around its turn: `interrupted` and `disabled` end the loop
      before the upload, `untagged` after it. */
  datatype File = File(key: string, path: string, readable: bool, end: UploadEnd, interrupted: bool, disabled: bool, untagged: bool)

  function PathOf(f: File): string {
    if f.path == "" then f.key else f.path
  }

  /** The updates of the others before an operation, whether the record expires then, and whether the
      operation fails. */
  datatype Moment = Moment(others: seq<Update>, expires: bool, fails: bool)

  predicate FromOthers(updates: seq<Update>) {
    forall i :: 0 <= i < |updates| ==> updates[i].Cancel? || updates[i].Annotate?
  }

  predicate AllFromOthers(moments: seq<Moment>) {
    forall i :: 0 <= i < |moments| ==> FromOthers(moments[i].others)
  }

  predicate Stays(moments: seq<Moment>) {
    forall i :: 0 <= i < |moments| ==> !moments[i].expires
  }

  /** Nobody else touches the file and no operation on it fails. */
  predicate Calm(moments: seq<Moment>) {
    forall i :: 0 <= i < |moments| ==> moments[i].others == [] && !moments[i].expires && !moments[i].fails
  }

  /** A file that was uploaded, or failed to be, and the record as it was last seen before. */
  datatype Upload = Upload(file: File, seen: Record)

  class StateFile {
    var rc: Option<Record>
    var moments: seq<Moment>
    ghost var finished: Option<Record>   // what the last Finish returned
    ghost var uploads: seq<Upload>       // what was uploaded, in order

    constructor (rc: Option<Record>, moments: seq<Moment>)
      ensures this.rc == rc && this.moments == moments && finished == None && uploads == []
    {
      this.rc, this.moments, finished, uploads := rc, moments, None, [];
    }

    method Interfere() returns (fails: bool)
      requires AllFromOthers(moments)
      modifies this`rc, this`moments
      ensures Calm(old(moments)) ==> Calm(moments) && rc == old(rc) && !fails
      ensures AllFromOthers(moments)
      ensures Stays(old(moments)) ==> Stays(moments) && rc.Some? == old(rc).Some?
      ensures rc.Some? ==>
        && old(rc).Some? && Later(old(rc).value, rc.value)
        && rc.value.uploaded == old(rc).value.uploaded && rc.value.paths == old(rc).value.paths
    {
      if rc.Some? {
        LaterSame(rc.value);
      }
      if moments == [] {
        return false;
      }
      var moment := moments[0];
      fails, moments := moment.fails, moments[1..];
      if moment.expires {
        rc := None;
      }
      if rc.None? {
        return;
      }
      ghost var before := rc.value;
      for i := 0 to |moment.others|
        invariant rc.Some? && moments == old(moments)[1..] && (i == 0 ==> rc == old(rc))
        invariant Later(before, rc.value) && rc.value.uploaded == before.uploaded && rc.value.paths == before.paths
      {
        ApplyLater(moment.others[i], rc.value);
        LaterTwice(before, rc.value, Apply(moment.others[i], rc.value));
        rc := Some(Apply(moment.others[i], rc.value));
      }
    }

    method Reload() returns (r: Option<Record>)
      requires AllFromOthers(moments)
      modifies this`rc, this`moments
      ensures Calm(old(moments)) ==> Calm(moments) && rc == old(rc) && r == rc
      ensures AllFromOthers(moments) && (r.Some? ==> r == rc)
      ensures Stays(old(moments)) ==> Stays(moments) && rc.Some? == old(rc).Some?
      ensures rc.Some? ==>
        && old(rc).Some? && Later(old(rc).value, rc.value)
        && rc.value.uploaded == old(rc).value.uploaded && rc.value.paths == old(rc).value.paths
    {
      var fails := Interfere();
      r := if fails then None else rc;
    }

    method Modify(u: Update) returns (r: Option<Record>)
      requires AllFromOthers(moments) && (u.Progress? || u.Finish?)
      modifies this`rc, this`moments, this`finished
      ensures AllFromOthers(moments) && (r.Some? ==> r == rc)
      ensures Stays(old(moments)) ==> Stays(moments) && rc.Some? == old(rc).Some?
      ensures rc.Some? ==> old(rc).Some? && Later(old(rc).value, rc.value)
      ensures rc.Some? ==> forall p :: p in rc.value.paths ==> p in old(rc).value.paths || u == Progress(p)
      ensures rc.Some? ==> forall p :: p in old(rc).value.paths ==> p in rc.value.paths
      ensures r.Some? && u.Progress? && !r.value.skipped && !r.value.uploaded ==> u.path in r.value.paths
      ensures Calm(old(moments)) ==> Calm(moments) && (old(rc).Some? ==> r == Some(Apply(u, old(rc).value)))
      ensures rc.Some? && u.Progress? ==> rc.value.uploaded == old(rc).value.uploaded
      ensures rc.Some? && u.Finish? ==> rc.value.paths == old(rc).value.paths
      ensures rc.Some? && u.Finish? ==> rc.value.uploaded == (old(rc).value.uploaded || (r.Some? && !rc.value.skipped))
      ensures finished == if u.Finish? then r else old(finished)
    {
      var fails := Interfere();
      r := None;
      if !fails && rc.Some? {
        ApplyLater(u, rc.value);
        LaterTwice(old(rc).value, rc.value, Apply(u, rc.value));
        if u.Progress? {
          UniqMembers(rc.value.paths + [u.path]);
        }
        rc := Some(Apply(u, rc.value));
        r := rc;
      }
      finished := if u.Finish? then r else finished;
    }

    method Clean()
      requires AllFromOthers(moments)
      modifies this`rc, this`moments
      ensures rc == None
    {
      var _ := Interfere();
      rc := None;
    }
  }

  /** The file needs no more uploading: it was uploaded before, its path is recorded, or there is nothing to read. */
  predicate Settled(start: seq<string>, paths: seq<string>, f: File) {
    f.key in start || PathOf(f) in paths || !f.readable
  }

  /** The file is still to be uploaded: the record names neither it nor its path. */
  predicate Wanted(f: File, start: seq<string>) {
    Pending(f, start) && PathOf(f) !in start
  }

  /** Nothing keeps the file from being uploaded, if it has to be. */
  predicate Smooth(f: File, start: seq<string>) {
    && (f.key !in start ==> !f.interrupted)
    && (Wanted(f, start) ==> !f.disabled && f.end.Uploaded? && !f.untagged)
  }

  /** The path was in the record before, or its file was not, could be read, and was uploaded now. */
  predicate Earned(files: seq<File>, start: seq<string>, p: string) {
    p in start || exists i :: 0 <= i < |files| && Pending(files[i], start) && files[i].end.Uploaded? && PathOf(files[i]) == p
  }

  /** The file is there and the record did not have it. */
  predicate Pending(f: File, start: seq<string>) {
    f.readable && f.key !in start
  }

  /** Exactly the paths that the record had and those of the files that could be read. */
  ghost predicate Complete(files: seq<File>, start: seq<string>, paths: seq<string>) {
    forall p :: p in paths <==> p in start || exists i :: 0 <= i < |files| && Pending(files[i], start) && PathOf(files[i]) == p
  }

  lemma {:induction false} AllComplete(files: seq<File>, left: seq<File>, start: seq<string>, paths: seq<string>)
    requires Recorded(files, start, paths)
    requires forall f :: f in files && f.key !in start ==> f in left
    requires forall k :: 0 <= k < |left| ==> Settled(start, paths, left[k])
    ensures Complete(files, start, paths)
  {
    forall i | 0 <= i < |files| && Pending(files[i], start)
      ensures PathOf(files[i]) in paths
    {
      assert files[i] in left;
    }
  }

  /** The reasons for an error when nothing else touches the state file: the record has no name or no
      label, or a file stops the loop. */
  predicate Troubled(files: seq<File>, start: seq<string>, named: bool, labelled: bool) {
    !named || !labelled || exists f :: f in files && f.key !in start && StopsLoop(f, start)
  }

  predicate StopsLoop(f: File, start: seq<string>) {
    f.interrupted || (Wanted(f, start) && (f.disabled || f.untagged || f.end.Stops?))
  }

  /** The reasons to leave the record for later without an error. */
  predicate Postponed(files: seq<File>, start: seq<string>, rc: Record) {
    rc.skipped || rc.uploaded || exists f :: f in files && Wanted(f, start) && f.end.Fails?
  }

  /** An upload that had to be made: the record neither names the file nor its path, and when it was last seen
      it was neither skipped nor uploaded, nor was the path in it. */
  predicate Due(u: Upload, files: seq<File>, start: seq<string>) {
    && u.file in files && Wanted(u.file, start) && !u.file.interrupted && !u.file.disabled
    && !u.seen.skipped && !u.seen.uploaded && PathOf(u.file) !in u.seen.paths
  }

  /** The uploads since `from` had to be made, and when all is `fine` they went well. */
  predicate AllDue(uploads: seq<Upload>, from: nat, files: seq<File>, start: seq<string>, fine: bool) {
    forall i :: from <= i < |uploads| ==>
      Due(uploads[i], files, start) && (fine ==> uploads[i].file.end.Uploaded? && !uploads[i].file.untagged)
  }

  lemma {:induction false} DueTwice(a: seq<Upload>, b: seq<Upload>, from: nat, files: seq<File>, start: seq<string>, fine: bool, more: bool)
    requires from <= |a| && a <= b && AllDue(a, from, files, start, fine) && AllDue(b, |a|, files, start, more)
    ensures AllDue(b, from, files, start, fine && more)
  {
  }

  /** The record's paths are those it had, which it keeps, and those of files uploaded now. */
  predicate Recorded(files: seq<File>, start: seq<string>, paths: seq<string>) {
    (forall p :: p in paths ==> Earned(files, start, p)) && forall p :: p in start ==> p in paths
  }

  lemma {:induction false} RecordedMore(files: seq<File>, start: seq<string>, a: seq<string>, b: seq<string>, f: File)
    requires Recorded(files, start, a) && f in files && Pending(f, start) && f.end.Uploaded?
    requires forall p :: p in b ==> p in a || p == PathOf(f)
    requires forall p :: p in a ==> p in b
    ensures Recorded(files, start, b)
  {
    var n :| 0 <= n < |files| && files[n] == f;
    assert Earned(files, start, PathOf(f));
  }

  lemma {:induction false} SettledLater(start: seq<string>, a: seq<string>, b: seq<string>, files: seq<File>)
    requires forall p :: p in a ==> p in b
    ensures forall k :: 0 <= k < |files| && Settled(start, a, files[k]) ==> Settled(start, b, files[k])
  {
  }

  method ToUpload(files: seq<File>, done: seq<string>) returns (left: seq<File>)
    ensures forall f :: f in left <==> f in files && f.key !in done
  {
    left := [];
    for i := 0 to |files|
      invariant forall f :: f in left <==> f in files[..i] && f.key !in done
    {
      if files[i].key !in done {
        left := left + [files[i]];
      }
    }
  }

  /** After the last file: mark the record uploaded, and clean it up if it was not skipped meanwhile. */
  method Finalize(state: StateFile, labelled: bool) returns (error: bool, cleaned: bool)
    requires AllFromOthers(state.moments) && state.rc.Some?
    modifies state`rc, state`moments, state`finished
    ensures cleaned ==>
      && labelled && !error && state.rc == None
      && state.finished.Some? && state.finished.value.uploaded && !state.finished.value.skipped
      && Later(old(state.rc).value, state.finished.value) && state.finished.value.paths == old(state.rc).value.paths
    ensures Calm(old(state.moments)) && labelled && !old(state.rc).value.skipped && !old(state.rc).value.uploaded ==> cleaned
    ensures error && Calm(old(state.moments)) ==> !labelled
    ensures !error && !cleaned ==> state.rc.Some? && (state.rc.value.skipped || state.rc.value.uploaded)
    ensures !cleaned && Stays(old(state.moments)) ==> state.rc.Some?
    ensures !cleaned && state.rc.Some? ==>
      && Later(old(state.rc).value, state.rc.value)
      && state.rc.value.uploaded == old(state.rc).value.uploaded && state.rc.value.paths == old(state.rc).value.paths
  {
    hide Later;
    cleaned := false;
    var latest := state.Reload();
    if latest.None? {
      return true, false;
    }
    if latest.value.skipped || latest.value.uploaded {
      return false, false;
    }
    if !labelled {
      return true, false;
    }
    ghost var before := state.rc.value;
    latest := state.Modify(Finish);
    if state.rc.Some? {
      LaterTwice(old(state.rc).value, before, state.rc.value);
    }
    if latest.None? {
      return true, false;
    }
    if latest.value.skipped {
      return false, false;
    }
    state.Clean();
    return false, true;
  }

  /** One file's turn in the loop: whether the loop is over, with or without an error, and whether nothing
      is left to do for the file. */
  method UploadNext(state: StateFile, f: File, files: seq<File>, ghost start: seq<string>) returns (over: bool, error: bool, completed: bool)
    requires AllFromOthers(state.moments) && state.rc.Some? && f in files && f.key !in start
    requires Recorded(files, start, state.rc.value.paths)
    modifies state
    ensures AllFromOthers(state.moments) && state.finished == old(state.finished)
    ensures Stays(old(state.moments)) ==> Stays(state.moments) && state.rc.Some?
    ensures !over ==> state.rc.Some?
    ensures state.rc.Some? ==>
      && Later(old(state.rc).value, state.rc.value) && state.rc.value.uploaded == old(state.rc).value.uploaded
      && Recorded(files, start, state.rc.value.paths) && (forall p :: p in old(state.rc).value.paths ==> p in state.rc.value.paths)
    ensures old(state.uploads) <= state.uploads && AllDue(state.uploads, |old(state.uploads)|, files, start, !over && completed)
    ensures over && error && Calm(old(state.moments)) ==> StopsLoop(f, start)
    ensures over && !error ==> state.rc.Some? && (state.rc.value.skipped || state.rc.value.uploaded)
    ensures !over && completed ==> Settled(start, state.rc.value.paths, f)
    ensures !over && !completed ==> Wanted(f, start) && f.end.Fails?
    ensures Calm(old(state.moments)) ==> Calm(state.moments) && state.rc.Some? && state.rc.value.skipped == old(state.rc).value.skipped
    ensures (Calm(old(state.moments)) && Smooth(f, start) && !old(state.rc).value.skipped && !old(state.rc).value.uploaded) ==>
      !over && completed
  {
    LaterSame(state.rc.value);
    hide Later, Recorded;
    if f.interrupted {
      return true, true, false;
    }
    var latest := state.Reload();
    if latest.None? {
      return true, true, false;
    }
    if latest.value.skipped || latest.value.uploaded {
      return true, false, false;
    }
    if !f.readable || PathOf(f) in latest.value.paths {
      return false, false, true;
    }
    if f.disabled {
      return true, true, false;
    }
    state.uploads := state.uploads + [Upload(f, latest.value)];
    match f.end {
      case Fails =>
        return false, false, false;
      case Stops =>
        return true, true, false;
      case Uploaded =>
        ghost var before := state.rc.value;
        latest := state.Modify(Progress(PathOf(f)));
        if state.rc.Some? {
          LaterTwice(old(state.rc).value, before, state.rc.value);
          RecordedMore(files, start, before.paths, state.rc.value.paths, f);
        }
        if latest.None? {
          return true, true, false;
        }
        if latest.value.skipped || latest.value.uploaded {
          return true, false, false;
        }
        if f.untagged {
          return true, true, false;
        }
        return false, false, true;
    }
  }

  /** Upload the record's files. It is cleaned up only after an update of its state marked it uploaded and
      saw it not skipped, its paths being exactly those it had and those of the files that could be read;
      and it is cleaned up when nothing interferes and no upload fails. Otherwise its state file, if it
      does not expire, remains, has only gone forward, and is not newly marked uploaded; and there is a
      reason for the error, or for leaving it. Only uploads that had to be made are made. */
  method UploadFiles(state: StateFile, files: seq<File>, named: bool, labelled: bool) returns (error: bool, cleaned: bool)
    requires AllFromOthers(state.moments)
    modifies state
    ensures old(state.uploads) <= state.uploads
    ensures AllDue(state.uploads, |old(state.uploads)|, files, if old(state.rc).Some? then old(state.rc).value.paths else [], cleaned)
    ensures cleaned ==> named && labelled && !error && old(state.rc).Some? && state.rc == None
    ensures cleaned ==>
      && state.finished.Some? && state.finished.value.uploaded && !state.finished.value.skipped
      && Later(old(state.rc).value, state.finished.value)
      && Complete(files, old(state.rc).value.paths, state.finished.value.paths)
    ensures (Calm(old(state.moments)) && named && labelled && old(state.rc).Some? &&
             (forall f :: f in files ==> Smooth(f, old(state.rc).value.paths)) && !old(state.rc).value.skipped && !old(state.rc).value.uploaded) ==> cleaned
    ensures !cleaned && old(state.rc).Some? && Stays(old(state.moments)) ==> state.rc.Some?
    ensures !cleaned && state.rc.Some? ==>
      && old(state.rc).Some? && Later(old(state.rc).value, state.rc.value)
      && state.rc.value.uploaded == old(state.rc).value.uploaded
      && Recorded(files, old(state.rc).value.paths, state.rc.value.paths)
    ensures error && Calm(old(state.moments)) && old(state.rc).Some? ==> Troubled(files, old(state.rc).value.paths, named, labelled)
    ensures !error && !cleaned ==> old(state.rc).Some? && state.rc.Some? && Postponed(files, old(state.rc).value.paths, state.rc.value)
  {
    hide Later, Complete;
    cleaned := false;
    var latest := state.Reload();
    if latest.None? || !named {
      return true, false;
    }
    ghost var start, from := old(state.rc).value.paths, |old(state.uploads)|;
    assert AllDue(state.uploads, from, files, start, true) && Recorded(files, start, state.rc.value.paths);
    hide AllDue, Recorded, Earned, Settled, Smooth, Wanted, StopsLoop;
    var toUpload := ToUpload(files, latest.value.paths);
    var allCompleted := true;
    for i := 0 to |toUpload|
      invariant AllFromOthers(state.moments) && state.rc.Some? && (Stays(old(state.moments)) ==> Stays(state.moments))
      invariant Later(old(state.rc).value, state.rc.value) && state.rc.value.uploaded == old(state.rc).value.uploaded
      invariant Recorded(files, start, state.rc.value.paths)
      invariant old(state.uploads) <= state.uploads && AllDue(state.uploads, from, files, start, allCompleted)
      invariant allCompleted ==> forall k :: 0 <= k < i ==> Settled(start, state.rc.value.paths, toUpload[k])
      invariant Calm(old(state.moments)) ==> Calm(state.moments) && state.rc.value.skipped == old(state.rc).value.skipped
      invariant (Calm(old(state.moments)) && !state.rc.value.skipped && !state.rc.value.uploaded &&
                 (forall f :: f in files ==> Smooth(f, start))) ==> allCompleted
      invariant !allCompleted ==> exists f :: f in files && Wanted(f, start) && f.end.Fails?
    {
      assert toUpload[i] in toUpload;
      ghost var before, uploads := state.rc.value, state.uploads;
      var over, failed, completed := UploadNext(state, toUpload[i], files, start);
      if state.rc.Some? {
        LaterTwice(old(state.rc).value, before, state.rc.value);
        SettledLater(start, before.paths, state.rc.value.paths, toUpload);
      }
      DueTwice(uploads, state.uploads, from, files, start, allCompleted, !over && completed);
      if over {
        return failed, false;
      }
      allCompleted := allCompleted && completed;
    }
    if allCompleted {
      ghost var before := state.rc.value;
      error, cleaned := Finalize(state, labelled);
      if cleaned {
        LaterTwice(old(state.rc).value, before, state.finished.value);
        AllComplete(files, toUpload, start, state.finished.value.paths);
      } else if state.rc.Some? {
        LaterTwice(old(state.rc).value, before, state.rc.value);
      }
      return;
    }
    error := false;
  }

  /** A file that cannot be read does not keep its record from being marked uploaded and cleaned up,
      although its path was never recorded. */
  method UnreadableIsForgotten(rc: Record, f: File) returns (state: StateFile)
    requires !rc.skipped && !rc.uploaded && !f.readable && !f.interrupted && PathOf(f) !in rc.paths
    ensures state.rc == None && state.finished.Some? && state.finished.value.uploaded && PathOf(f) !in state.finished.value.paths
  {
    state := new StateFile(Some(rc), []);
    var _, cleaned := UploadFiles(state, [f], true, true);
    assert cleaned;
  }
}
