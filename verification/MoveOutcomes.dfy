/** What a move or a copy answers: the error of the first check or call that fails, and what a
    successful one leaves. */
module MoveOutcomes {
  import opened Prelude
  import opened Mover

  /** The checks before anything is written, in the order of the code; None when all pass. */
  ghost predicate RefusedWith(fs: Fs, src: Path, dst: Path, f: Faults, e: Error) {
    if f.statSrc || (src !in fs.files && src !in fs.dirs) then e == SourceNotFound
    else if src in fs.dirs then e == SourceIsDirectory
    else (dst in fs.files || dst in fs.dirs) && !f.statDst && e == DestinationExists
  }

  /** A refused request answers the check that failed and changes nothing. */
  lemma RefusalAnswers(fs: Fs, src: Path, dst: Path, dryRun: bool, f: Faults, e: Error)
    requires RefusedWith(fs, src, dst, f, e)
    ensures ServerMove(fs, src, dst, false, dryRun, f) == (fs, Failed(e))
    ensures ServerCopy(fs, src, dst, false, dryRun, f) == (fs, Failed(e))
  {
  }

  /** A request to overwrite is refused whatever the disk holds. */
  lemma OverwritingIsRefused(fs: Fs, src: Path, dst: Path, dryRun: bool, f: Faults)
    ensures ServerMove(fs, src, dst, true, dryRun, f) == (fs, Failed(OverwriteRefused))
    ensures ServerCopy(fs, src, dst, true, dryRun, f) == (fs, Failed(OverwriteRefused))
  {
  }

  ghost predicate PassesChecks(fs: Fs, src: Path, dst: Path, f: Faults) {
    !f.statSrc && src in fs.files && src !in fs.dirs && dst !in fs.files && dst !in fs.dirs
  }

  /** A dry run that passes the checks answers the size and changes nothing. */
  lemma DryRunAnswers(fs: Fs, src: Path, dst: Path, f: Faults)
    requires PassesChecks(fs, src, dst, f)
    ensures ServerMove(fs, src, dst, false, true, f) == (fs, Done(|fs.files[src]|, None))
    ensures ServerCopy(fs, src, dst, false, true, f) == (fs, Done(|fs.files[src]|, None))
  {
  }

  /** A file stands where one of the directories above the destination would have to be. */
  ghost predicate FileInTheWay(fs: Fs, dst: Path) {
    exists k :: 0 <= k < |dst| && dst[..k] in fs.files
  }

  lemma WayIsMade(fs: Fs, dst: Path, fail: bool)
    requires dst != []
    ensures MkdirAll(fs, Parent(dst), fail).None? <==> fail || FileInTheWay(fs, dst)
    ensures MkdirAll(fs, Parent(dst), fail).Some? ==>
              MkdirAll(fs, Parent(dst), fail).value.files == fs.files
  {
    if FileInTheWay(fs, dst) {
      var k :| 0 <= k < |dst| && dst[..k] in fs.files;
      assert dst[..k] == Parent(dst)[..k];
    }
    if exists p :: p in Prefixes(Parent(dst)) && p in fs.files {
      var p :| p in Prefixes(Parent(dst)) && p in fs.files;
      var k :| 0 <= k <= |Parent(dst)| && p == Parent(dst)[..k];
      assert p == dst[..k];
    }
  }

  lemma DestinationIsNew(fs: Fs, src: Path, dst: Path)
    requires src in fs.files && dst !in fs.files && !FileInTheWay(fs, dst)
    ensures src != dst && (dst != [] ==> dst !in Prefixes(Parent(dst)))
  {
  }

  /** The error of the first system call that fails, for a request that passed the checks; None when
      they all work and the disk holds what was written. */
  ghost predicate FailsWith(fs: Fs, src: Path, dst: Path, f: Faults, e: Option<Error>)
    requires src in fs.files
  {
    if f.mkdir || FileInTheWay(fs, dst) then e == Some(MkdirFailed)
    else if f.openSrc || f.createDst || f.copyStops.Some? then e == Some(CopyFailed)
    else if f.hashDst then e == Some(HashFailed)
    else if f.landed.Some? && f.landed.value != fs.files[src] then e == Some(ChecksumMismatch)
    else e == None
  }

  /** A copy that passed the checks answers the first failure, or else leaves the file's bytes at the
      destination and answers their number and digest. */
  lemma CopyAnswers(fs: Fs, src: Path, dst: Path, f: Faults, e: Option<Error>)
    requires PassesChecks(fs, src, dst, f) && dst != [] && FailsWith(fs, src, dst, f, e)
    ensures var (fs', r) := ServerCopy(fs, src, dst, false, false, f);
      if e.Some? then r == Failed(e.value)
      else r == Done(|fs.files[src]|, Some(Sha256(fs.files[src]))) && fs'.files == fs.files[dst := fs.files[src]]
  {
    WayIsMade(fs, dst, f.mkdir);
    if !FileInTheWay(fs, dst) { DestinationIsNew(fs, src, dst); }
  }

  /** A move answers the same, and then removes its source or says that it could not. */
  lemma MoveAnswers(fs: Fs, src: Path, dst: Path, f: Faults, e: Option<Error>)
    requires PassesChecks(fs, src, dst, f) && dst != [] && FailsWith(fs, src, dst, f, e)
    ensures var (fs', r) := ServerMove(fs, src, dst, false, false, f);
      if e.Some? then r == Failed(e.value)
      else if f.removeSrc then r == Failed(SourceNotRemoved) && fs'.files == fs.files[dst := fs.files[src]]
      else r == Done(|fs.files[src]|, Some(Sha256(fs.files[src]))) && fs'.files == fs.files[dst := fs.files[src]] - {src}
  {
    CopyAnswers(fs, src, dst, f, e);
  }
}
