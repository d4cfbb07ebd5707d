/** Triage rules: matching, and the stable order that decides between several matches. */
module Rules {
  import opened Prelude

  datatype Rule = Rule(
    name: string, priority: int, enabled: bool, matchType: string, exclude: seq<string>,
    extensions: seq<string>, patterns: seq<string>, minSize: int, maxSize: int)

  /** What a rule is asked about: the file name, and its lower-cased part after the last dot. */
  datatype File = File(name: string, extension: string, size: int, isDir: bool)

  type Glob = (string, string) -> bool

  /** `Rule.matches`, with fnmatch given. */
  predicate Matches(glob: Glob, r: Rule, f: File) {
    && r.enabled
    && !(r.matchType == "file" && f.isDir)
    && !(r.matchType == "directory" && !f.isDir)
    && !(exists i :: 0 <= i < |r.exclude| && glob(f.name, r.exclude[i]))
    && (r.extensions != [] ==> f.extension in r.extensions)
    && (r.patterns != [] ==> exists i :: 0 <= i < |r.patterns| && glob(f.name, r.patterns[i]))
    && !(r.minSize > 0 && f.size < r.minSize)
    && !(r.maxSize > 0 && f.size > r.maxSize)
  }

  // ---------------------------------------------------------------- stable sorting

  ghost predicate Descending(s: seq<Rule>) {
    forall i, k :: 0 <= i < k < |s| ==> s[i].priority >= s[k].priority
  }

  function OfPriority(s: seq<Rule>, p: int): seq<Rule> {
    if s == [] then []
    else OfPriority(s[..|s| - 1], p) + if s[|s| - 1].priority == p then [s[|s| - 1]] else []
  }

  /** `t` is `s` sorted by descending priority, rules of one priority keeping their order. */
  ghost predicate StableSortOf(t: seq<Rule>, s: seq<Rule>) {
    Descending(t) && forall p :: OfPriority(t, p) == OfPriority(s, p)
  }

  /** Behind every rule of at least its priority. */
  function Insert(s: seq<Rule>, r: Rule): seq<Rule> {
    if s != [] && s[|s| - 1].priority < r.priority then Insert(s[..|s| - 1], r) + [s[|s| - 1]]
    else s + [r]
  }

  /** Python's stable `sorted(s, key=lambda r: -r.priority)`. */
  function Sorted(s: seq<Rule>): seq<Rule> {
    if s == [] then [] else Insert(Sorted(s[..|s| - 1]), s[|s| - 1])
  }

  lemma OfPrioritySnoc(s: seq<Rule>, r: Rule, p: int)
    ensures OfPriority(s + [r], p) == if r.priority == p then OfPriority(s, p) + [r] else OfPriority(s, p)
  {
    assert (s + [r])[..|s|] == s;
  }

  lemma {:induction false} NoneOfPriority(s: seq<Rule>, p: int)
    requires forall i :: 0 <= i < |s| ==> s[i].priority != p
    ensures OfPriority(s, p) == []
  {
    if s != [] { NoneOfPriority(s[..|s| - 1], p); }
  }

  lemma DescendingSnoc(s: seq<Rule>, last: Rule)
    requires Descending(s) && forall x :: x in s ==> x.priority >= last.priority
    ensures Descending(s + [last])
  {
    assert forall i :: 0 <= i < |s| ==> s[i] in s;
  }

  lemma {:induction false} InsertIsStable(s: seq<Rule>, r: Rule)
    requires Descending(s)
    ensures Descending(Insert(s, r)) && |Insert(s, r)| == |s| + 1
    ensures forall x :: x in Insert(s, r) <==> x in s || x == r
    ensures forall p :: OfPriority(Insert(s, r), p) == OfPriority(s + [r], p)
  {
    if s != [] && s[|s| - 1].priority < r.priority {
      var front, last := s[..|s| - 1], s[|s| - 1];
      InsertIsStable(front, r);
      assert s == front + [last];
      DescendingSnoc(Insert(front, r), last);
      forall p ensures OfPriority(Insert(s, r), p) == OfPriority(s + [r], p) {
        OfPrioritySnoc(Insert(front, r), last, p);
        OfPrioritySnoc(front, r, p);
        OfPrioritySnoc(front, last, p);
        OfPrioritySnoc(s, r, p);
      }
    }
  }

  lemma {:induction false} SortedIsStable(s: seq<Rule>)
    ensures StableSortOf(Sorted(s), s)
  {
    if s != [] {
      var front, last := s[..|s| - 1], s[|s| - 1];
      SortedIsStable(front);
      InsertIsStable(Sorted(front), last);
      assert s == front + [last];
      forall p ensures OfPriority(Sorted(s), p) == OfPriority(s, p) {
        OfPrioritySnoc(Sorted(front), last, p);
        OfPrioritySnoc(front, last, p);
      }
    }
  }

  lemma SameEmptiness(t: seq<Rule>, u: seq<Rule>)
    requires forall p :: OfPriority(t, p) == OfPriority(u, p)
    ensures t == [] <==> u == []
  {
    var p := if t == [] then 0 else t[|t| - 1].priority;
    var q := if u == [] then 0 else u[|u| - 1].priority;
    assert OfPriority(t, p) == OfPriority(u, p) && OfPriority(t, q) == OfPriority(u, q);
  }

  /** There is only one stable sort of a list. */
  lemma {:induction false} StableSortIsUnique(t: seq<Rule>, u: seq<Rule>)
    requires Descending(t) && Descending(u) && forall p :: OfPriority(t, p) == OfPriority(u, p)
    ensures t == u
  {
    SameEmptiness(t, u);
    if t != [] {
      var t0, a, u0, b := t[..|t| - 1], t[|t| - 1], u[..|u| - 1], u[|u| - 1];
      assert t == t0 + [a] && u == u0 + [b];
      LowestAgree(t, u);
      LowestAgree(u, t);
      var p := a.priority;
      assert OfPriority(t, p) == OfPriority(u, p);
      assert OfPriority(t, p) == OfPriority(t0, p) + [a] && OfPriority(u, p) == OfPriority(u0, p) + [b];
      SnocAgree(OfPriority(t0, p), a, OfPriority(u0, p), b);
      forall q ensures OfPriority(t0, q) == OfPriority(u0, q) {
        assert OfPriority(t, q) == OfPriority(u, q);
        OfPrioritySnoc(t0, a, q);
        OfPrioritySnoc(u0, b, q);
      }
      StableSortIsUnique(t0, u0);
    }
  }

  lemma SnocAgree(s: seq<Rule>, x: Rule, t: seq<Rule>, y: Rule)
    requires s + [x] == t + [y]
    ensures s == t && x == y
  {
    assert |s| == |t|;
    assert (s + [x])[|s|] == x && (t + [y])[|t|] == y;
    assert s == (s + [x])[..|s|] && t == (t + [y])[..|t|];
  }

  lemma LastIsLowest(t: seq<Rule>)
    requires t != []
    ensures OfPriority(t, t[|t| - 1].priority) != []
  {
  }

  lemma LowestAgree(t: seq<Rule>, u: seq<Rule>)
    requires t != [] && u != [] && Descending(t) && forall p :: OfPriority(t, p) == OfPriority(u, p)
    ensures t[|t| - 1].priority <= u[|u| - 1].priority
  {
    var p := u[|u| - 1].priority;
    LastIsLowest(u);
    assert OfPriority(t, p) != [];
    if t[|t| - 1].priority > p {
      NoneOfPriority(t, p);
    }
  }

  /** Re-sorting a sorted list behind which one rule was appended is one sort of everything. */
  lemma ResortIsOneSort(inserted: seq<Rule>, r: Rule)
    ensures Sorted(Sorted(inserted) + [r]) == Sorted(inserted + [r])
  {
    SortedIsStable(inserted);
    SortedIsStable(Sorted(inserted) + [r]);
    SortedIsStable(inserted + [r]);
    forall p ensures OfPriority(Sorted(Sorted(inserted) + [r]), p) == OfPriority(Sorted(inserted + [r]), p) {
      OfPrioritySnoc(Sorted(inserted), r, p);
      OfPrioritySnoc(inserted, r, p);
    }
    StableSortIsUnique(Sorted(Sorted(inserted) + [r]), Sorted(inserted + [r]));
  }

  // ---------------------------------------------------------------- matching

  type Test = Rule -> bool

  /** The first rule of a list that passes a test. */
  function FirstMatch(test: Test, s: seq<Rule>): Option<Rule> {
    if s == [] then None
    else
      var before := FirstMatch(test, s[..|s| - 1]);
      if before.Some? then before
      else if test(s[|s| - 1]) then Some(s[|s| - 1]) else None
  }

  /** The rule at position k passes, and every other rule that passes is of lower priority, or of
      the same and inserted later. */
  ghost predicate Wins(test: Test, inserted: seq<Rule>, k: int) {
    && 0 <= k < |inserted| && test(inserted[k])
    && forall i :: 0 <= i < |inserted| && test(inserted[i]) ==>
         inserted[i].priority < inserted[k].priority || (inserted[i].priority == inserted[k].priority && k <= i)
  }

  ghost predicate NoneMatches(test: Test, inserted: seq<Rule>) {
    forall i :: 0 <= i < |inserted| ==> !test(inserted[i])
  }

  lemma FirstMatchSnoc(test: Test, s: seq<Rule>, r: Rule)
    ensures FirstMatch(test, s + [r]) ==
            var before := FirstMatch(test, s);
            if before.Some? then before else if test(r) then Some(r) else None
  {
    assert (s + [r])[..|s|] == s;
  }

  lemma {:induction false} FirstMatchIsHighest(test: Test, s: seq<Rule>)
    requires Descending(s) && FirstMatch(test, s).Some?
    ensures s != [] && FirstMatch(test, s).value.priority >= s[|s| - 1].priority
  {
    var front := s[..|s| - 1];
    if FirstMatch(test, front).Some? { FirstMatchIsHighest(test, front); }
  }

  /** The better of a first match and a rule inserted after it. */
  function Better(test: Test, was: Option<Rule>, r: Rule): Option<Rule> {
    if test(r) && (was.None? || was.value.priority < r.priority) then Some(r) else was
  }

  lemma {:induction false} FirstMatchInsert(test: Test, s: seq<Rule>, r: Rule)
    requires Descending(s)
    ensures FirstMatch(test, Insert(s, r)) == Better(test, FirstMatch(test, s), r)
  {
    if s != [] && s[|s| - 1].priority < r.priority {
      var front, last := s[..|s| - 1], s[|s| - 1];
      assert s == front + [last];
      FirstMatchInsert(test, front, r);
      FirstMatchSnoc(test, Insert(front, r), last);
      FirstMatchSnoc(test, front, last);
    } else {
      FirstMatchSnoc(test, s, r);
      if FirstMatch(test, s).Some? { FirstMatchIsHighest(test, s); }
    }
  }

  /** k is the position of the winner, or -1 when no rule passes. */
  ghost predicate IsWinner(test: Test, inserted: seq<Rule>, k: int) {
    if k == -1 then NoneMatches(test, inserted) else Wins(test, inserted, k)
  }

  function RuleAt(inserted: seq<Rule>, k: int): Option<Rule> {
    if 0 <= k < |inserted| then Some(inserted[k]) else None
  }

  lemma WinnerStep(test: Test, inserted: seq<Rule>, r: Rule, k: int) returns (k': int)
    requires IsWinner(test, inserted, k)
    ensures IsWinner(test, inserted + [r], k')
    ensures RuleAt(inserted + [r], k') == Better(test, RuleAt(inserted, k), r)
  {
    k' := if test(r) && (k == -1 || inserted[k].priority < r.priority) then |inserted| else k;
    assert forall i :: 0 <= i < |inserted| ==> (inserted + [r])[i] == inserted[i];
  }

  lemma {:induction false} WinnerOf(test: Test, inserted: seq<Rule>) returns (k: int)
    ensures IsWinner(test, inserted, k)
    ensures FirstMatch(test, Sorted(inserted)) == RuleAt(inserted, k)
  {
    if inserted == [] { return -1; }
    var n := |inserted| - 1;
    k := WinnerOf(test, inserted[..n]);
    k := WinnerStep(test, inserted[..n], inserted[n], k);
    assert inserted[..n] + [inserted[n]] == inserted;
    SortedIsStable(inserted[..n]);
    FirstMatchInsert(test, Sorted(inserted[..n]), inserted[n]);
  }

  /** The first match of the sorted list is the earliest-inserted rule among the matching rules
      of highest priority; there is none exactly when no rule matches. */
  lemma MatchIsEarliestOfHighest(test: Test, inserted: seq<Rule>)
    ensures match FirstMatch(test, Sorted(inserted))
      case None => NoneMatches(test, inserted)
      case Some(r) => exists k :: Wins(test, inserted, k) && inserted[k] == r
  {
    var k := WinnerOf(test, inserted);
  }

  // ---------------------------------------------------------------- the engine

  class RuleEngine {
    const glob: Glob
    var rules: seq<Rule>
    ghost var inserted: seq<Rule>

    ghost predicate Valid()
      reads this
    {
      rules == Sorted(inserted)
    }

    constructor (glob: Glob, rules: seq<Rule>)
      ensures Valid() && inserted == rules && this.glob == glob
    {
      this.glob := glob;
      this.rules := Sorted(rules);
      inserted := rules;
    }

    /** Appending and sorting again leaves one stable sort of the whole insertion sequence. */
    method AddRule(rule: Rule)
      requires Valid()
      modifies this
      ensures Valid() && inserted == old(inserted) + [rule]
    {
      ResortIsOneSort(inserted, rule);
      rules := rules + [rule];
      rules := Sorted(rules);
      inserted := inserted + [rule];
    }

    /** The first rule in list order that matches the file. */
    method Match(f: File) returns (r: Option<Rule>)
      requires Valid()
      ensures r == FirstMatch(x => Matches(glob, x, f), Sorted(inserted))
    {
      ghost var test: Test := x => Matches(glob, x, f);
      for i := 0 to |rules|
        invariant FirstMatch(test, rules[..i]) == None
      {
        assert rules[..i + 1] == rules[..i] + [rules[i]];
        FirstMatchSnoc(test, rules[..i], rules[i]);
        assert test(rules[i]) == Matches(glob, rules[i], f);
        if Matches(glob, rules[i], f) {
          FirstMatchPrefix(test, rules, i + 1);
          return Some(rules[i]);
        }
      }
      assert rules[..|rules|] == rules;
      r := None;
    }
  }

  lemma {:induction false} FirstMatchPrefix(test: Test, s: seq<Rule>, k: nat)
    requires k <= |s| && FirstMatch(test, s[..k]).Some?
    ensures FirstMatch(test, s) == FirstMatch(test, s[..k])
  {
    if k == |s| {
      assert s[..k] == s;
    } else {
      assert s[..|s| - 1][..k] == s[..k];
      FirstMatchPrefix(test, s[..|s| - 1], k);
    }
  }

  // ---------------------------------------------------------------- what a rule asks for

  /** Some pattern of the list matches the name. */
  predicate AnyMatches(glob: Glob, name: string, patterns: seq<string>) {
    exists p :: p in patterns && glob(name, p)
  }

  /** A rule holds off a file, whatever else it asks for, if it is disabled, is for the other kind of
      entry, excludes the name, or bounds the size, with 0 for no bound, below or above the file's. */
  predicate HoldsOff(glob: Glob, r: Rule, f: File) {
    || !r.enabled
    || (f.isDir && r.matchType == "file") || (!f.isDir && r.matchType == "directory")
    || AnyMatches(glob, f.name, r.exclude)
    || (0 < r.minSize && f.size < r.minSize) || (0 < r.maxSize && r.maxSize < f.size)
  }

  /** A rule matches if it does not hold the file off, and the file has one of its extensions and one of
      its patterns, where it has any. */
  lemma RuleMatchesIff(glob: Glob, r: Rule, f: File)
    ensures Matches(glob, r, f) <==>
            && !HoldsOff(glob, r, f)
            && (|r.extensions| == 0 || f.extension in r.extensions)
            && (|r.patterns| == 0 || AnyMatches(glob, f.name, r.patterns))
  {
    assert forall i :: 0 <= i < |r.exclude| ==> r.exclude[i] in r.exclude;
    assert forall i :: 0 <= i < |r.patterns| ==> r.patterns[i] in r.patterns;
  }
}
