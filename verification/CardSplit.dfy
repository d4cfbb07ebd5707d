/** Splitting card elements so that no card holds more tables than the platform allows. */
module CardSplit {
  import opened Prelude

  datatype Element = Table(rows: seq<string>) | Text(tag: string, content: string)

  function Tables(elements: seq<Element>): nat {
    if elements == [] then 0
    else Tables(elements[..|elements| - 1]) + if elements[|elements| - 1].Table? then 1 else 0
  }

  lemma TablesSnoc(elements: seq<Element>, e: Element)
    ensures Tables(elements + [e]) == Tables(elements) + if e.Table? then 1 else 0
  {
    assert (elements + [e])[..|elements|] == elements;
  }

  lemma {:induction false} TablesJoin(a: seq<Element>, b: seq<Element>)
    ensures Tables(a + b) == Tables(a) + Tables(b)
  {
    if b == [] {
      assert a + b == a;
    } else {
      assert (a + b)[..|a + b| - 1] == a + b[..|b| - 1];
      TablesJoin(a, b[..|b| - 1]);
    }
  }

  ghost predicate WithinLimit(groups: seq<seq<Element>>, maxTables: nat) {
    forall i :: 0 <= i < |groups| ==> Tables(groups[i]) <= maxTables
  }

  ghost predicate Full(groups: seq<seq<Element>>, maxTables: nat) {
    forall i :: 0 <= i < |groups| ==> groups[i] != [] && Tables(groups[i]) == maxTables
  }

  lemma {:induction false} AtMostTheLimitEach(groups: seq<seq<Element>>, maxTables: nat)
    requires WithinLimit(groups, maxTables)
    ensures Tables(Concat(groups)) <= |groups| * maxTables
  {
    if groups != [] {
      TablesJoin(groups[0], Concat(groups[1..]));
      AtMostTheLimitEach(groups[1..], maxTables);
      assert |groups| * maxTables == maxTables + (|groups| - 1) * maxTables;
    }
  }

  lemma {:induction false} ExactlyTheLimitEach(groups: seq<seq<Element>>, maxTables: nat)
    requires Full(groups, maxTables)
    ensures Tables(Concat(groups)) == |groups| * maxTables
  {
    if groups != [] {
      TablesJoin(groups[0], Concat(groups[1..]));
      ExactlyTheLimitEach(groups[1..], maxTables);
      assert |groups| * maxTables == maxTables + (|groups| - 1) * maxTables;
    }
  }

  /** How many cards are needed. */
  function CardsNeeded(tables: nat, maxTables: nat): nat
    requires maxTables >= 1
  {
    Max(1, (tables + maxTables - 1) / maxTables)
  }

  lemma MulMono(a: nat, b: nat, m: nat)
    ensures a <= b ==> a * m <= b * m
  {
  }

  lemma CeilingIs(t: nat, m: nat, k: nat)
    requires m >= 1 && t <= k * m && (k >= 1 ==> (k - 1) * m < t)
    ensures (t + m - 1) / m == k
  {
    var d := (t + m - 1) / m;
    assert d * m <= t + m - 1 < d * m + m;
    assert (d + 1) * m == d * m + m && (k + 1) * m == k * m + m && (k >= 1 ==> (k - 1) * m == k * m - m);
    MulMono(d + 1, k, m);
    MulMono(k + 1, d, m);
  }

  lemma NeededAtMost(t: nat, m: nat, k: nat)
    requires m >= 1 && k >= 1 && t <= k * m
    ensures CardsNeeded(t, m) <= k
  {
    var d := (t + m - 1) / m;
    assert d * m <= t + m - 1;
    assert (k + 1) * m == k * m + m;
    MulMono(k + 1, d, m);
  }

  /** The finished groups and the one being filled. */
  method FillGroups(elements: seq<Element>, maxTables: nat)
    returns (groups: seq<seq<Element>>, current: seq<Element>)
    requires maxTables >= 1 && elements != []
    ensures Concat(groups) + current == elements && current != []
    ensures Full(groups, maxTables) && Tables(current) <= maxTables
    ensures groups != [] ==> Tables(current) >= 1
  {
    groups, current := [], [];
    var tableCount := 0;
    for i := 0 to |elements|
      invariant Concat(groups) + current == elements[..i]
      invariant Full(groups, maxTables)
      invariant tableCount == Tables(current) <= maxTables
      invariant i > 0 ==> current != []
      invariant groups != [] ==> tableCount >= 1
    {
      var el := elements[i];
      assert elements[..i + 1] == elements[..i] + [el];
      if el.Table? {
        if tableCount >= maxTables {
          ConcatSnoc(groups, current);
          groups := groups + [current];
          current := [];
          tableCount := 0;
        }
        TablesSnoc(current, el);
        current := current + [el];
        tableCount := tableCount + 1;
      } else {
        TablesSnoc(current, el);
        current := current + [el];
      }
    }
    assert elements[..|elements|] == elements;
  }

  lemma GroupCount(groups: seq<seq<Element>>, current: seq<Element>, maxTables: nat)
    requires maxTables >= 1 && Full(groups, maxTables) && Tables(current) <= maxTables
    requires groups != [] ==> Tables(current) >= 1
    ensures |groups| + 1 == CardsNeeded(Tables(Concat(groups) + current), maxTables)
  {
    ExactlyTheLimitEach(groups, maxTables);
    TablesJoin(Concat(groups), current);
    var t := Tables(Concat(groups) + current);
    assert (|groups| + 1) * maxTables == |groups| * maxTables + maxTables;
    if Tables(current) >= 1 {
      CeilingIs(t, maxTables, |groups| + 1);
    } else {
      CeilingIs(t, maxTables, 0);
    }
  }

  /** The groups concatenate back to the elements, each within the limit and none empty, and
      there are exactly as many as needed. */
  method SplitByTableLimit(elements: seq<Element>, maxTables: nat) returns (groups: seq<seq<Element>>)
    requires maxTables >= 1
    ensures elements == [] ==> groups == [[]]
    ensures elements != [] ==>
      && Concat(groups) == elements && WithinLimit(groups, maxTables)
      && (forall i :: 0 <= i < |groups| ==> groups[i] != [])
      && |groups| == CardsNeeded(Tables(elements), maxTables)
  {
    if elements == [] { return [[]]; }
    var current;
    groups, current := FillGroups(elements, maxTables);
    ConcatSnoc(groups, current);
    GroupCount(groups, current, maxTables);
    groups := groups + [current];
  }

  /** No contiguous split within the limit has fewer groups. */
  lemma NoSplitIsSmaller(elements: seq<Element>, maxTables: nat, groups: seq<seq<Element>>)
    requires maxTables >= 1 && elements != []
    requires Concat(groups) == elements && WithinLimit(groups, maxTables)
    ensures |groups| >= CardsNeeded(Tables(elements), maxTables)
  {
    assert Tables(elements) <= |groups| * maxTables by { AtMostTheLimitEach(groups, maxTables); }
    assert groups != [];
    NeededAtMost(Tables(elements), maxTables, |groups|);
  }
}
