/** The executor as it runs: requests in progress over one disk, every system call in place. */
module ExecutorServer {
  import opened Prelude
  import opened Mover
  import opened Executor

  class Server {
    const disk: Disk
    var calls: seq<Call>

    ghost function Abs(): Exec
      reads this, disk
    {
      Exec(disk.Abs(), calls)
    }

    constructor (disk: Disk)
      ensures this.disk == disk && Abs() == Exec(disk.Abs(), [])
    {
      this.disk := disk;
      calls := [];
    }

    method Receive(r: Request) returns (k: nat)
      modifies this`calls
      ensures k == |old(calls)| && calls == old(calls) + [Call(r, Received)]
    {
      k := |calls|;
      calls := calls + [Call(r, Received)];
    }

    method WriteFile(p: Path, bytes: Bytes)
      modifies disk`files
      ensures disk.Abs() == Write(old(disk.Abs()), p, bytes)
    {
      if p in disk.files {
        var present := disk.files[p];
        disk.files := disk.files[p := bytes + present[Min(|bytes|, |present|)..]];
      }
    }

    /** `io.Copy` from the open source to the open destination. */
    method CopyStream(r: Request, atOpen: Bytes, f: Fault) returns (next: Phase)
      modifies disk`files
      ensures (disk.Abs(), next) == CopyBytes(old(disk.Abs()), r, atOpen, f)
    {
      var data := if r.src in disk.files then disk.files[r.src] else atOpen;
      match f {
        case Fails => next := Cleaning(CopyFailed);
        case Stops(n) =>
          WriteFile(r.dst, data[..Min(n, |data|)]);
          next := Cleaning(CopyFailed);
        case Lands(other) =>
          WriteFile(r.dst, other);
          next := Copied(data);
        case _ =>
          WriteFile(r.dst, data);
          next := Copied(data);
      }
    }

    /** Hashing the destination and comparing. */
    method CheckCopy(r: Request, data: Bytes, f: Fault) returns (next: Phase)
      ensures next == Verify(disk.Abs(), r, data, f)
    {
      var digest := disk.Hash(r.dst, f.Fails?);
      if digest.None? { return Cleaning(HashFailed); }
      if digest.value != Sha256(data) { return Cleaning(ChecksumMismatch); }
      next := if r.removes then Verified(data) else Answered(Done(|data|, Some(Sha256(data))));
    }

    /** The next system call of one request. */
    method SystemCall(r: Request, phase: Phase, f: Fault) returns (next: Phase)
      modifies disk
      ensures (disk.Abs(), next) == Advance(old(disk.Abs()), r, phase, f)
    {
      match phase {
        case Received =>
          if f.Fails? || (r.src !in disk.files && r.src !in disk.dirs) { return Answered(Failed(SourceNotFound)); }
          if r.src in disk.dirs { return Answered(Failed(SourceIsDirectory)); }
          next := SourceSeen(|disk.files[r.src]|);
        case SourceSeen(size) =>
          if (r.dst in disk.files || r.dst in disk.dirs) && !f.Lies? { return Answered(Failed(DestinationExists)); }
          next := if r.dryRun then Answered(Done(size, None)) else DestinationFree;
        case DestinationFree =>
          var made := disk.MakeDirs(Parent(r.dst), f.Fails?);
          next := if made then DirectoryMade else Answered(Failed(MkdirFailed));
        case DirectoryMade =>
          next := if f.Fails? || r.src !in disk.files then Cleaning(CopyFailed) else SourceOpen(disk.files[r.src]);
        case SourceOpen(data) =>
          if f.Fails? || r.dst in disk.dirs { return Cleaning(CopyFailed); }
          next := DestinationOpen(if r.src in disk.files then disk.files[r.src] else data);
          disk.files := disk.files[r.dst := []];
        case DestinationOpen(data) => next := CopyStream(r, data, f);
        case Copied(data) => next := CheckCopy(r, data, f);
        case Verified(data) =>
          if f.Fails? || r.src !in disk.files { return Answered(Failed(SourceNotRemoved)); }
          disk.Remove(r.src, false);
          next := Answered(Done(|data|, Some(Sha256(data))));
        case Cleaning(error) =>
          disk.Remove(r.dst, f.Fails?);
          next := Answered(Failed(error));
        case Answered(_) => next := phase;
      }
    }

    /** One request gets on by one system call; the others stay where they are. */
    method StepCall(k: nat, f: Fault)
      requires k < |calls|
      modifies this`calls, disk
      ensures Abs() == Step(old(Abs()), Turn(k, f))
    {
      var c := calls[k];
      var next := SystemCall(c.request, c.phase, f);
      calls := calls[k := c.(phase := next)];
    }

    /** One request until its answer, with nothing else going on. */
    method FinishCall(k: nat, faults: Phase -> Fault) returns (ghost turns: seq<Turn>)
      requires k < |calls|
      modifies this`calls, disk
      ensures Abs() == Run(old(Abs()), turns)
      ensures |calls| == |old(calls)| && calls[k].phase.Answered?
    {
      turns := [];
      while !calls[k].phase.Answered?
        invariant k < |calls| == |old(calls)| && Abs() == Run(old(Abs()), turns)
        decreases ToCome(calls[k].phase)
      {
        var f := faults(calls[k].phase);
        ghost var t := Turn(k, f);
        assert (turns + [t])[..|turns|] == turns;
        EveryCallEnds(disk.Abs(), calls[k].request, calls[k].phase, f);
        StepCall(k, f);
        turns := turns + [t];
      }
    }
  }
}
