/** The executor's copy / verify / delete protocol on a file system in which system calls may
    fail. `Move` and `Copy` give the effect of the Go functions; the class `Disk` performs the
    same system calls in order and is proved to agree with them. */
module Mover {
  import opened Prelude

  newtype byte = x: int | 0 <= x < 256
  type Bytes = seq<byte>

  /** A cleaned absolute path as its list of components; the root is []. */
  type Path = seq<string>

  /** SHA-256 taken as ideal: different contents have different digests. */
  datatype Digest = Sha256(of: Bytes)

  datatype Fs = Fs(files: map<Path, Bytes>, dirs: set<Path>)

  function Parent(p: Path): Path {
    if p == [] then [] else p[..|p| - 1]
  }

  function Prefixes(p: Path): set<Path> {
    set k | 0 <= k <= |p| :: p[..k]
  }

  /** Files and directories are distinct, and every file lies in directories up to the root. */
  ghost predicate Tree(fs: Fs) {
    && fs.files.Keys !! fs.dirs
    && [] in fs.dirs
    && forall p, k :: p in fs.files && 0 <= k < |p| ==> p[..k] in fs.dirs
  }

  /** Which system calls fail. `copyStops` is a write error after that many bytes; `landed` is
      what the disk holds when a copy that reported success went wrong. */
  datatype Faults = Faults(
    statSrc: bool, statDst: bool, mkdir: bool, openSrc: bool, createDst: bool,
    copyStops: Option<nat>, landed: Option<Bytes>, hashDst: bool, cleanup: bool, removeSrc: bool,
    osText: string)

  datatype Error =
    | SourceNotFound | SourceIsDirectory | DestinationExists | MkdirFailed | CopyFailed
    | HashFailed | ChecksumMismatch | SourceNotRemoved | OverwriteRefused

  datatype Result = Done(size: nat, checksum: Option<Digest>) | Failed(error: Error)

  predicate Exists(fs: Fs, p: Path) {
    p in fs.files || p in fs.dirs
  }

  /** `os.MkdirAll`: None when it fails. */
  function MkdirAll(fs: Fs, dir: Path, fail: bool): Option<Fs> {
    if fail || (exists p :: p in Prefixes(dir) && p in fs.files) then None
    else Some(fs.(dirs := fs.dirs + Prefixes(dir)))
  }

  /** `os.Remove` of a file, whose error is ignored. */
  function Discard(fs: Fs, p: Path, fail: bool): Fs {
    if fail then fs else fs.(files := fs.files - {p})
  }

  /** The copy with the digest of what was read; None when it fails. */
  function CopyFile(fs: Fs, src: Path, dst: Path, f: Faults): (Fs, Option<(nat, Digest)>) {
    if f.openSrc || src !in fs.files then (fs, None)
    else if f.createDst || dst in fs.dirs then (fs, None)
    else
      var created := fs.(files := fs.files[dst := []]);
      var data := created.files[src];
      match f.copyStops
      case Some(n) => (created.(files := created.files[dst := data[..Min(n, |data|)]]), None)
      case None =>
        var onDisk := match f.landed case None => data case Some(other) => other;
        (created.(files := created.files[dst := onDisk]), Some((|data|, Sha256(data))))
  }

  function HashFile(fs: Fs, p: Path, fail: bool): Option<Digest> {
    if fail || p !in fs.files then None else Some(Sha256(fs.files[p]))
  }

  /** Everything up to the verified copy, which moving and copying share. */
  function VerifiedCopy(fs: Fs, src: Path, dst: Path, overwrite: bool, dryRun: bool, f: Faults): (Fs, Result) {
    if f.statSrc || !Exists(fs, src) then (fs, Failed(SourceNotFound))
    else if src in fs.dirs then (fs, Failed(SourceIsDirectory))
    else if !overwrite && !f.statDst && Exists(fs, dst) then (fs, Failed(DestinationExists))
    else if dryRun then (fs, Done(|fs.files[src]|, None))
    else
      match MkdirAll(fs, Parent(dst), f.mkdir)
      case None => (fs, Failed(MkdirFailed))
      case Some(ready) =>
        var (copied, copy) := CopyFile(ready, src, dst, f);
        if copy.None? then (Discard(copied, dst, f.cleanup), Failed(CopyFailed)) else
        var check := HashFile(copied, dst, f.hashDst);
        if check.None? then (Discard(copied, dst, f.cleanup), Failed(HashFailed))
        else if check.value != copy.value.1 then (Discard(copied, dst, f.cleanup), Failed(ChecksumMismatch))
        else (copied, Done(copy.value.0, Some(copy.value.1)))
  }

  function Copy(fs: Fs, src: Path, dst: Path, overwrite: bool, dryRun: bool, f: Faults): (Fs, Result) {
    VerifiedCopy(fs, src, dst, overwrite, dryRun, f)
  }

  function Move(fs: Fs, src: Path, dst: Path, overwrite: bool, dryRun: bool, f: Faults): (Fs, Result) {
    var (copied, r) := VerifiedCopy(fs, src, dst, overwrite, dryRun, f);
    if r.Failed? || dryRun then (copied, r)
    else if f.removeSrc || src !in copied.files then (copied, Failed(SourceNotRemoved))
    else (copied.(files := copied.files - {src}), r)
  }

  /** The server's handlers refuse to overwrite. */
  function ServerMove(fs: Fs, src: Path, dst: Path, overwrite: bool, dryRun: bool, f: Faults): (Fs, Result) {
    if overwrite then (fs, Failed(OverwriteRefused)) else Move(fs, src, dst, false, dryRun, f)
  }

  function ServerCopy(fs: Fs, src: Path, dst: Path, overwrite: bool, dryRun: bool, f: Faults): (Fs, Result) {
    if overwrite then (fs, Failed(OverwriteRefused)) else Copy(fs, src, dst, false, dryRun, f)
  }

  // ---------------------------------------------------------------- safety

  /** Nothing but `src` changed among the files that were there, and the bytes of `src` are
      still at `src`, or at `dst`, where there was no file before. */
  ghost predicate Preserves(fs: Fs, fs': Fs, src: Path, dst: Path) {
    && (forall p :: p in fs.files && p != src ==> p in fs'.files && fs'.files[p] == fs.files[p])
    && (src in fs.files ==>
          || (src in fs'.files && fs'.files[src] == fs.files[src])
          || (dst !in fs.files && dst in fs'.files && fs'.files[dst] == fs.files[src]))
  }

  lemma VerifiedCopyPreserves(fs: Fs, src: Path, dst: Path, dryRun: bool, f: Faults)
    requires f.statDst ==> dst !in fs.files
    ensures var (fs', r) := VerifiedCopy(fs, src, dst, false, dryRun, f);
      && (forall p :: p in fs.files ==> p in fs'.files && fs'.files[p] == fs.files[p])
      && (r.Done? && !dryRun ==>
            src in fs.files && dst !in fs.files && dst in fs'.files && fs'.files[dst] == fs.files[src])
  {
  }

  /** With a truthful existence check on the destination, whatever else fails: no file that was
      there is altered, a source that is gone has its verified bytes at the destination, and
      success is reported exactly when the source was removed. */
  lemma MovePreserves(fs: Fs, src: Path, dst: Path, overwrite: bool, dryRun: bool, f: Faults)
    requires f.statDst ==> dst !in fs.files
    ensures var (fs', r) := ServerMove(fs, src, dst, overwrite, dryRun, f);
      && Preserves(fs, fs', src, dst)
      && (src in fs.files && src !in fs'.files ==>
            dst in fs'.files && fs'.files[dst] == fs.files[src] && r == Done(|fs.files[src]|, Some(Sha256(fs.files[src]))))
      && (!dryRun ==> (r.Done? <==> src in fs.files && src !in fs'.files))
      && (dryRun ==> fs' == fs)
  {
    VerifiedCopyPreserves(fs, src, dst, dryRun, f);
  }

  lemma CopyPreserves(fs: Fs, src: Path, dst: Path, overwrite: bool, dryRun: bool, f: Faults)
    requires f.statDst ==> dst !in fs.files
    ensures var (fs', r) := ServerCopy(fs, src, dst, overwrite, dryRun, f);
      && (forall p :: p in fs.files ==> p in fs'.files && fs'.files[p] == fs.files[p])
      && (r.Done? && !dryRun ==> src in fs.files && dst !in fs.files && dst in fs'.files
                                 && fs'.files[dst] == fs.files[src])
      && (dryRun ==> fs' == fs)
  {
    VerifiedCopyPreserves(fs, src, dst, dryRun, f);
  }

  lemma VerifiedCopyKeepsTree(fs: Fs, src: Path, dst: Path, overwrite: bool, dryRun: bool, f: Faults)
    requires Tree(fs)
    ensures Tree(VerifiedCopy(fs, src, dst, overwrite, dryRun, f).0)
  {
    forall k | 0 <= k < |dst| ensures dst[..k] in Prefixes(Parent(dst)) {
      assert dst[..k] == Parent(dst)[..k];
    }
  }

  /** The tree shape is kept whatever fails. */
  lemma MoveKeepsTree(fs: Fs, src: Path, dst: Path, overwrite: bool, dryRun: bool, f: Faults)
    requires Tree(fs)
    ensures Tree(Move(fs, src, dst, overwrite, dryRun, f).0)
    ensures Tree(Copy(fs, src, dst, overwrite, dryRun, f).0)
  {
    VerifiedCopyKeepsTree(fs, src, dst, overwrite, dryRun, f);
  }

  /** The destination check is what everything rests on: the other failures are harmless for
      every choice of them if and only if that check does not fail on an existing file. */
  lemma SafeIffCheckIsTruthful(fs: Fs, src: Path, dst: Path, checkFails: bool)
    requires Tree(fs) && src in fs.files
    ensures (forall f: Faults :: f.statDst == checkFails ==>
               Preserves(fs, Move(fs, src, dst, false, false, f).0, src, dst))
       <==> !(checkFails && dst in fs.files)
  {
    if checkFails && dst in fs.files {
      var f := Faults(false, true, false, false, false, Some(0), None, false, false, false, "");
      assert Parent(dst) == dst[..|dst| - 1];
      forall p | p in Prefixes(Parent(dst)) ensures p in fs.dirs {
        var k :| 0 <= k <= |Parent(dst)| && p == Parent(dst)[..k];
        assert p == dst[..k];
      }
      assert dst !in Move(fs, src, dst, false, false, f).0.files;
      assert !Preserves(fs, Move(fs, src, dst, false, false, f).0, src, dst);
    } else {
      forall f: Faults | f.statDst == checkFails
        ensures Preserves(fs, Move(fs, src, dst, false, false, f).0, src, dst)
      {
        MovePreserves(fs, src, dst, false, false, f);
      }
    }
  }

  /** The check that lies: a move onto an existing file truncates it and, when the copy then fails,
      removes it. */
  lemma LyingCheckWitness()
    ensures var fs := Fs(map[["a"] := [1], ["b"] := [2]], {[]});
      var f := Faults(false, true, false, false, false, Some(0), None, false, false, false, "");
      Move(fs, ["a"], ["b"], false, false, f).0.files == map[["a"] := [1]]
  {
    var fs := Fs(map[["a"] := [1], ["b"] := [2]], {[]});
    var dst: Path := ["b"];
    assert Parent(dst) == [];
    forall p | p in Prefixes(Parent(dst)) ensures p !in fs.files { assert p == []; }
  }

  lemma MovedSourceIsGone(fs: Fs, src: Path, dst: Path, f: Faults)
    requires Tree(fs) && Move(fs, src, dst, false, false, f).1.Done?
    ensures !Exists(Move(fs, src, dst, false, false, f).0, src)
  {
    assert src in Prefixes(Parent(dst)) ==> MkdirAll(fs, Parent(dst), f.mkdir).None?;
  }

  /** Issuing a move again, because its reply was lost or it failed half-way, is harmless: once
      the move is done, or has left anything at the destination, a further one with any failures
      but that of the destination check fails and changes nothing. */
  lemma MoveAgainChangesNothing(fs: Fs, src: Path, dst: Path, f: Faults, again: Faults, dryRun: bool)
    requires Tree(fs)
    requires var (fs1, r) := ServerMove(fs, src, dst, false, false, f);
      r.Done? || (Exists(fs1, dst) && !again.statDst)
    ensures var fs1 := ServerMove(fs, src, dst, false, false, f).0;
      var (fs2, r2) := ServerMove(fs1, src, dst, false, dryRun, again);
      fs2 == fs1 && r2.Failed?
  {
    if Move(fs, src, dst, false, false, f).1.Done? { MovedSourceIsGone(fs, src, dst, f); }
  }

  // ---------------------------------------------------------------- the system calls in order

  class Disk {
    var files: map<Path, Bytes>
    var dirs: set<Path>

    ghost function Abs(): Fs
      reads this
    {
      Fs(files, dirs)
    }

    constructor (files: map<Path, Bytes>, dirs: set<Path>)
      ensures Abs() == Fs(files, dirs)
    {
      this.files, this.dirs := files, dirs;
    }

    method MakeDirs(dir: Path, fail: bool) returns (ok: bool)
      modifies this`dirs
      ensures ok <==> MkdirAll(old(Abs()), dir, fail).Some?
      ensures ok ==> Some(Abs()) == MkdirAll(old(Abs()), dir, fail)
      ensures !ok ==> Abs() == old(Abs())
    {
      ok := !fail && !(exists p :: p in Prefixes(dir) && p in files);
      if ok { dirs := dirs + Prefixes(dir); }
    }

    method Remove(p: Path, fail: bool)
      modifies this`files
      ensures Abs() == Discard(old(Abs()), p, fail)
    {
      if !fail { files := files - {p}; }
    }

    method CopyContents(src: Path, dst: Path, f: Faults) returns (r: Option<(nat, Digest)>)
      modifies this`files
      ensures (Abs(), r) == CopyFile(old(Abs()), src, dst, f)
    {
      if f.openSrc || src !in files { return None; }
      if f.createDst || dst in dirs { return None; }
      files := files[dst := []];
      var data := files[src];
      if f.copyStops.Some? {
        files := files[dst := data[..Min(f.copyStops.value, |data|)]];
        return None;
      }
      files := files[dst := if f.landed.Some? then f.landed.value else data];
      r := Some((|data|, Sha256(data)));
    }

    method Hash(p: Path, fail: bool) returns (r: Option<Digest>)
      ensures r == HashFile(Abs(), p, fail)
    {
      if fail || p !in files { return None; }
      r := Some(Sha256(files[p]));
    }

    /** Copying, cleaning up after a failure, and verifying. */
    method CopyAndVerify(src: Path, dst: Path, overwrite: bool, dryRun: bool, f: Faults) returns (r: Result)
      modifies this
      ensures (Abs(), r) == VerifiedCopy(old(Abs()), src, dst, overwrite, dryRun, f)
    {
      if f.statSrc || (src !in files && src !in dirs) { return Failed(SourceNotFound); }
      if src in dirs { return Failed(SourceIsDirectory); }
      if !overwrite {
        if !f.statDst && (dst in files || dst in dirs) { return Failed(DestinationExists); }
      }
      if dryRun { return Done(|files[src]|, None); }
      var made := MakeDirs(Parent(dst), f.mkdir);
      if !made { return Failed(MkdirFailed); }
      var copy := CopyContents(src, dst, f);
      if copy.None? {
        Remove(dst, f.cleanup);
        return Failed(CopyFailed);
      }
      var check := Hash(dst, f.hashDst);
      if check.None? {
        Remove(dst, f.cleanup);
        return Failed(HashFailed);
      }
      if check.value != copy.value.1 {
        Remove(dst, f.cleanup);
        return Failed(ChecksumMismatch);
      }
      r := Done(copy.value.0, Some(copy.value.1));
    }

    method MoveFile(src: Path, dst: Path, overwrite: bool, dryRun: bool, f: Faults) returns (r: Result)
      modifies this
      ensures (Abs(), r) == ServerMove(old(Abs()), src, dst, overwrite, dryRun, f)
    {
      if overwrite { return Failed(OverwriteRefused); }
      r := CopyAndVerify(src, dst, false, dryRun, f);
      if r.Failed? || dryRun { return; }
      if f.removeSrc || src !in files { return Failed(SourceNotRemoved); }
      files := files - {src};
    }

    method CopyFileTo(src: Path, dst: Path, overwrite: bool, dryRun: bool, f: Faults) returns (r: Result)
      modifies this
      ensures (Abs(), r) == ServerCopy(old(Abs()), src, dst, overwrite, dryRun, f)
    {
      if overwrite { return Failed(OverwriteRefused); }
      r := CopyAndVerify(src, dst, false, dryRun, f);
    }
  }
}
