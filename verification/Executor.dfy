/** The executor's calls as they run side by side. The server handles every request in its own
    goroutine without a lock, so the system calls of different requests interleave freely; each
    step of the model is one system call of one request. */
module Executor {
  import opened Prelude
  import opened Mover

  /** A move (`removes`) or a copy, as the daemon asks for it: never overwriting. */
  datatype Request = Request(src: Path, dst: Path, removes: bool, dryRun: bool)

  /** How a system call ends: `Lies` is an existence check of the destination that fails on an
      existing file, `Stops` a copy that breaks off, `Lands` a copy that reports success although
      the disk holds other bytes. */
  datatype Fault = Works | Fails | Lies | Stops(written: nat) | Lands(other: Bytes)

  /** What a request has done so far; the next system call follows from it. */
  datatype Phase =
    | Received | SourceSeen(size: nat) | DestinationFree | DirectoryMade
    | SourceOpen(data: Bytes) | DestinationOpen(data: Bytes) | Copied(data: Bytes) | Verified(data: Bytes)
    | Cleaning(error: Error)
    | Answered(result: Result)

  datatype Call = Call(request: Request, phase: Phase)

  datatype Exec = Exec(fs: Fs, calls: seq<Call>)

  /** Whose turn it is, and how its system call ends. */
  datatype Turn = Turn(call: nat, fault: Fault)

  // ---------------------------------------------------------------- one system call

  /** What the open source yields; a file that was unlinked meanwhile still has its bytes. */
  function Source(fs: Fs, src: Path, atOpen: Bytes): Bytes {
    if src in fs.files then fs.files[src] else atOpen
  }

  /** Writing from the start of an open file; writes to an unlinked file are lost. */
  function Write(fs: Fs, p: Path, bytes: Bytes): Fs {
    if p !in fs.files then fs
    else fs.(files := fs.files[p := bytes + fs.files[p][Min(|bytes|, |fs.files[p]|)..]])
  }

  function CopyBytes(fs: Fs, r: Request, atOpen: Bytes, f: Fault): (Fs, Phase) {
    var data := Source(fs, r.src, atOpen);
    match f
    case Fails => (fs, Cleaning(CopyFailed))
    case Stops(n) => (Write(fs, r.dst, data[..Min(n, |data|)]), Cleaning(CopyFailed))
    case Lands(other) => (Write(fs, r.dst, other), Copied(data))
    case _ => (Write(fs, r.dst, data), Copied(data))
  }

  function Verify(fs: Fs, r: Request, data: Bytes, f: Fault): Phase {
    match HashFile(fs, r.dst, f.Fails?)
    case None => Cleaning(HashFailed)
    case Some(digest) =>
      if digest != Sha256(data) then Cleaning(ChecksumMismatch)
      else if r.removes then Verified(data)
      else Answered(Done(|data|, Some(Sha256(data))))
  }

  /** The next system call of a request in the given phase. */
  function Advance(fs: Fs, r: Request, phase: Phase, f: Fault): (Fs, Phase) {
    match phase
    case Received =>
      if f.Fails? || !Exists(fs, r.src) then (fs, Answered(Failed(SourceNotFound)))
      else if r.src in fs.dirs then (fs, Answered(Failed(SourceIsDirectory)))
      else (fs, SourceSeen(|fs.files[r.src]|))
    case SourceSeen(size) =>
      if Exists(fs, r.dst) && !f.Lies? then (fs, Answered(Failed(DestinationExists)))
      else if r.dryRun then (fs, Answered(Done(size, None)))
      else (fs, DestinationFree)
    case DestinationFree =>
      (match MkdirAll(fs, Parent(r.dst), f.Fails?)
       case None => (fs, Answered(Failed(MkdirFailed)))
       case Some(ready) => (ready, DirectoryMade))
    case DirectoryMade =>
      if f.Fails? || r.src !in fs.files then (fs, Cleaning(CopyFailed)) else (fs, SourceOpen(fs.files[r.src]))
    case SourceOpen(data) =>
      if f.Fails? || r.dst in fs.dirs then (fs, Cleaning(CopyFailed))
      else (fs.(files := fs.files[r.dst := []]), DestinationOpen(Source(fs, r.src, data)))
    case DestinationOpen(data) => CopyBytes(fs, r, data, f)
    case Copied(data) => (fs, Verify(fs, r, data, f))
    case Verified(data) =>
      if f.Fails? || r.src !in fs.files then (fs, Answered(Failed(SourceNotRemoved)))
      else (fs.(files := fs.files - {r.src}), Answered(Done(|data|, Some(Sha256(data)))))
    case Cleaning(error) => (Discard(fs, r.dst, f.Fails?), Answered(Failed(error)))
    case Answered(_) => (fs, phase)
  }

  function Step(x: Exec, t: Turn): Exec {
    if t.call >= |x.calls| then x else
    var c := x.calls[t.call];
    var (fs, phase) := Advance(x.fs, c.request, c.phase, t.fault);
    Exec(fs, x.calls[t.call := c.(phase := phase)])
  }

  function Run(x: Exec, turns: seq<Turn>): Exec {
    if turns == [] then x else Step(Run(x, turns[..|turns| - 1]), turns[|turns| - 1])
  }

  // ---------------------------------------------------------------- a call that runs undisturbed

  /** The fault of the next system call, from a record of all of them. */
  function FaultAt(phase: Phase, f: Faults): Fault {
    match phase
    case Received => if f.statSrc then Fails else Works
    case SourceSeen(_) => if f.statDst then Lies else Works
    case DestinationFree => if f.mkdir then Fails else Works
    case DirectoryMade => if f.openSrc then Fails else Works
    case SourceOpen(_) => if f.createDst then Fails else Works
    case DestinationOpen(_) =>
      if f.copyStops.Some? then Stops(f.copyStops.value)
      else if f.landed.Some? then Lands(f.landed.value) else Works
    case Copied(_) => if f.hashDst then Fails else Works
    case Verified(_) => if f.removeSrc then Fails else Works
    case Cleaning(_) => if f.cleanup then Fails else Works
    case Answered(_) => Works
  }

  /** How many system calls are still to come, at most. */
  function ToCome(phase: Phase): nat {
    match phase
    case Received => 9 case SourceSeen(_) => 8 case DestinationFree => 7 case DirectoryMade => 6
    case SourceOpen(_) => 5 case DestinationOpen(_) => 4 case Copied(_) => 3 case Verified(_) => 1
    case Cleaning(_) => 1 case Answered(_) => 0
  }

  lemma EveryCallEnds(fs: Fs, r: Request, phase: Phase, f: Fault)
    requires !phase.Answered?
    ensures ToCome(Advance(fs, r, phase, f).1) < ToCome(phase)
  {
  }

  function Finish(fs: Fs, r: Request, phase: Phase, f: Faults): (Fs, Result)
    decreases ToCome(phase)
  {
    if phase.Answered? then (fs, phase.result)
    else
      EveryCallEnds(fs, r, phase, FaultAt(phase, f));
      var (fs', next) := Advance(fs, r, phase, FaultAt(phase, f));
      Finish(fs', r, next, f)
  }

  lemma AfterVerified(fs: Fs, r: Request, data: Bytes, f: Faults)
    ensures Finish(fs, r, Verified(data), f) ==
      if f.removeSrc || r.src !in fs.files then (fs, Failed(SourceNotRemoved))
      else (fs.(files := fs.files - {r.src}), Done(|data|, Some(Sha256(data))))
  {
  }

  lemma AfterCleaning(fs: Fs, r: Request, error: Error, f: Faults)
    ensures Finish(fs, r, Cleaning(error), f) == (Discard(fs, r.dst, f.cleanup), Failed(error))
  {
  }

  /** Verification and removal, as the sequential code ends. */
  function Ending(fs: Fs, r: Request, data: Bytes, f: Faults): (Fs, Result) {
    var check := HashFile(fs, r.dst, f.hashDst);
    if check.None? then (Discard(fs, r.dst, f.cleanup), Failed(HashFailed))
    else if check.value != Sha256(data) then (Discard(fs, r.dst, f.cleanup), Failed(ChecksumMismatch))
    else if !r.removes then (fs, Done(|data|, Some(Sha256(data))))
    else if f.removeSrc || r.src !in fs.files then (fs, Failed(SourceNotRemoved))
    else (fs.(files := fs.files - {r.src}), Done(|data|, Some(Sha256(data))))
  }

  lemma AfterCopied(fs: Fs, r: Request, data: Bytes, f: Faults)
    ensures Finish(fs, r, Copied(data), f) == Ending(fs, r, data, f)
  {
    AfterVerified(fs, r, data, f);
    AfterCleaning(fs, r, HashFailed, f);
    AfterCleaning(fs, r, ChecksumMismatch, f);
  }

  /** What the copy reads: its own truncation empties the source when that is the destination. */
  function ReadBytes(fs: Fs, r: Request): Bytes
    requires r.src in fs.files
  {
    if r.src == r.dst then [] else fs.files[r.src]
  }

  lemma AfterDestinationOpen(fs: Fs, r: Request, data: Bytes, f: Faults)
    requires r.dst in fs.files && fs.files[r.dst] == [] && Source(fs, r.src, data) == data
    ensures Finish(fs, r, DestinationOpen(data), f) ==
      match f.copyStops
      case Some(n) =>
        (Discard(fs.(files := fs.files[r.dst := data[..Min(n, |data|)]]), r.dst, f.cleanup), Failed(CopyFailed))
      case None =>
        var onDisk := match f.landed case None => data case Some(other) => other;
        Ending(fs.(files := fs.files[r.dst := onDisk]), r, data, f)
  {
    assert forall bytes: Bytes :: bytes + [] == bytes;
    var (fs', phase) := Advance(fs, r, DestinationOpen(data), FaultAt(DestinationOpen(data), f));
    if phase.Cleaning? { AfterCleaning(fs', r, CopyFailed, f); } else { AfterCopied(fs', r, data, f); }
  }

  /** Copying, as the sequential code goes on once the directory is made. */
  function Copying(fs: Fs, r: Request, f: Faults): (Fs, Result) {
    var (copied, copy) := CopyFile(fs, r.src, r.dst, f);
    if copy.None? then (Discard(copied, r.dst, f.cleanup), Failed(CopyFailed))
    else Ending(copied, r, if r.src in fs.files then ReadBytes(fs, r) else [], f)
  }

  lemma AfterDirectoryMade(fs: Fs, r: Request, f: Faults)
    ensures Finish(fs, r, DirectoryMade, f) == Copying(fs, r, f)
  {
    AfterCleaning(fs, r, CopyFailed, f);
    if !f.openSrc && r.src in fs.files {
      var data := fs.files[r.src];
      assert Finish(fs, r, DirectoryMade, f) == Finish(fs, r, SourceOpen(data), f);
      if !f.createDst && r.dst !in fs.dirs {
        var created := fs.(files := fs.files[r.dst := []]);
        AfterDestinationOpen(created, r, Source(created, r.src, data), f);
      }
    }
  }

  /** A request whose system calls nothing interrupts does exactly what `Move` and `Copy` say. */
  lemma UndisturbedIsSequential(fs: Fs, r: Request, f: Faults)
    ensures Finish(fs, r, Received, f) ==
      if r.removes then Move(fs, r.src, r.dst, false, r.dryRun, f) else Copy(fs, r.src, r.dst, false, r.dryRun, f)
  {
    if !f.statSrc && r.src in fs.files && r.src !in fs.dirs {
      var size := |fs.files[r.src]|;
      assert Finish(fs, r, Received, f) == Finish(fs, r, SourceSeen(size), f);
      if !(Exists(fs, r.dst) && !f.statDst) && !r.dryRun {
        assert Finish(fs, r, SourceSeen(size), f) == Finish(fs, r, DestinationFree, f);
        var made := MkdirAll(fs, Parent(r.dst), f.mkdir);
        if made.Some? { AfterDirectoryMade(made.value, r, f); }
      }
    }
  }
}
