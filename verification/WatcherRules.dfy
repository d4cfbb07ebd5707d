/** Which file-system events the watcher reports, and as what: the operation that the flags give, the
    name that decides whether a path is ignored, and what an event does to the path's timer. */
module WatcherRules {
  import opened Prelude
  import opened Text
  import opened Debounce

  /** The last part of a path with anything behind the last slash. */
  ghost predicate IsName(path: string, name: string) {
    && name != "" && '/' !in name
    && (path == name || exists dir :: path == dir + "/" + name)
  }

  lemma {:induction false} AfterSlashOf(dir: string, name: string)
    requires '/' !in name
    ensures AfterSlash(dir + "/" + name) == name
    ensures AfterSlash(name) == name
  {
    if name != "" {
      var n := |name| - 1;
      AfterSlashOf(dir, name[..n]);
      assert (dir + "/" + name)[..|dir + "/" + name| - 1] == dir + "/" + name[..n];
      assert name == name[..n] + [name[n]];
    }
  }

  /** The base of a path is its last part; slashes at the end do not count. */
  lemma BaseIsTheName(path: string, name: string)
    requires IsName(path, name)
    ensures Base(path) == name && Base(path + "/") == name
  {
    assert (path + "/")[..|path|] == path;
    if path == name {
      AfterSlashOf("", name);
    } else {
      var dir :| path == dir + "/" + name;
      AfterSlashOf(dir, name);
    }
  }

  /** The paths without a last part. */
  lemma BaseOfNothing()
    ensures Base("") == "." && Base("/") == "/"
  {
  }

  /** A name is ignored if a pattern matches it, if it is hidden, or if it is a partial download. */
  predicate IgnoredName(cfg: Config, name: string) {
    || (exists i :: 0 <= i < |cfg.ignores| && cfg.matches(cfg.ignores[i], name))
    || (name != "" && name[0] == '.')
    || (|name| >= 4 && name[|name| - 4..] == ".tmp")
    || (|name| >= 11 && name[|name| - 11..] == ".crdownload")
    || (|name| >= 5 && name[|name| - 5..] == ".part")
  }

  /** The operation that a set of flags stands for: the first one of create, write, remove and rename;
      none for a change of mode alone. */
  ghost predicate StandsFor(flags: set<Flag>, op: Op) {
    && (op == Create <==> FCreate in flags)
    && (op == Write <==> FWrite in flags && FCreate !in flags)
    && (op == Remove <==> FRemove in flags && FCreate !in flags && FWrite !in flags)
    && (op == Rename <==> FRename in flags && FCreate !in flags && FWrite !in flags && FRemove !in flags)
  }

  /** An event on an ignored name, or one that is a change of mode alone, leaves no trace; a removal or
      a rename is reported at once; a create or a write starts the path's timer, or starts it afresh and
      keeps the first operation, and is reported when the timer runs. */
  lemma EventIsReportedAs(cfg: Config, s: State, path: string, name: string, flags: set<Flag>, op: Op)
    requires IsName(path, name) && StandsFor(flags, op) && (path in s.pending ==> s.now < s.pending[path].deadline)
    ensures var s' := Apply(cfg, s, Fs(path, flags));
      if IgnoredName(cfg, name) || op == Unspecified then s' == s
      else
        && s'.now == s.now && s'.inputs == s.inputs + [Stamp(path, op, s.now)]
        && if op == Remove || op == Rename then s'.out == s.out + [Immediate(path, op, s.now)] && s'.pending == s.pending
           else
             && s'.out == s.out
             && s'.pending == s.pending[path := Pending(if path in s.pending then s.pending[path].op else op, s.now + cfg.debounce)]
  {
    BaseIsTheName(path, name);
    assert StartsWith(name, ".") <==> name != "" && name[0] == '.';
  }

  /** A timer runs exactly at its deadline and reports the path's first operation. */
  lemma TimerReports(cfg: Config, s: State, path: string)
    requires path in s.pending && s.now == s.pending[path].deadline
    ensures var s' := Apply(cfg, s, Expire(path));
      && s'.out == s.out + [Debounced(path, s.pending[path].op, s.now)] && s'.pending == s.pending - {path}
      && s'.inputs == s.inputs && s'.now == s.now
  {
  }

  /** Time passes up to the next deadline, and that is all that happens. */
  lemma TimePasses(cfg: Config, s: State, to: int)
    requires s.now <= to && forall p :: p in s.pending ==> to <= s.pending[p].deadline
    ensures Apply(cfg, s, Pass(to)) == s.(now := to)
  {
  }
}
