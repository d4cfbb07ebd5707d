/** Chat messages and the linkage between tool calls and tool results. */
module Messages {
  import opened Prelude

  datatype Role = System | User | Assistant | Tool

  /** One block of a list-valued content; `kind` is its "type" field. */
  datatype Block = TextBlock(kind: string, text: string) | ImageBlock(url: string) | OtherBlock(kind: string)

  datatype Content = Absent | Null | Plain(text: string) | Blocks(blocks: seq<Block>) | Single(block: Block)

  datatype Call = Call(id: Option<string>, name: string, arguments: string)

  /** `calls` is empty when the message has no tool_calls; `extra` holds the remaining keys. */
  datatype Msg = Msg(role: Role, content: Content, calls: seq<Call>, callId: Option<string>,
                     name: string, extra: map<string, string>)

  function Ids(calls: seq<Call>): (r: seq<Option<string>>)
    ensures |r| == |calls| && forall k :: 0 <= k < |calls| ==> r[k] == calls[k].id
  {
    seq(|calls|, k requires 0 <= k < |calls| => calls[k].id)
  }

  /** The call ids that still await their result after the messages. */
  function Pending(ms: seq<Msg>): seq<Option<string>> {
    if ms == [] then []
    else
      var last := ms[|ms| - 1];
      match last.role
      case Assistant => Ids(last.calls)
      case Tool => var p := Pending(ms[..|ms| - 1]); if p == [] then [] else p[1..]
      case _ => []
  }

  /** Tool results come right after their assistant message, in the order of its calls, and
      nothing else comes before the last of them. */
  ghost predicate Blocked(ms: seq<Msg>) {
    ms == [] ||
    var front, last := ms[..|ms| - 1], ms[|ms| - 1];
    Blocked(front) &&
    if last.role == Tool then Pending(front) != [] && Pending(front)[0] == last.callId
    else Pending(front) == []
  }

  lemma Snoc(ms: seq<Msg>, m: Msg)
    ensures Pending(ms + [m]) ==
      match m.role
      case Assistant => Ids(m.calls)
      case Tool => if Pending(ms) == [] then [] else Pending(ms)[1..]
      case _ => []
    ensures Blocked(ms + [m]) <==>
      Blocked(ms) && if m.role == Tool then Pending(ms) != [] && Pending(ms)[0] == m.callId else Pending(ms) == []
  {
    assert (ms + [m])[..|ms|] == ms;
  }

  /** And no call is left without its result. */
  ghost predicate Settled(ms: seq<Msg>) {
    Blocked(ms) && Pending(ms) == []
  }

  ghost predicate Carries(m: Msg, id: Option<string>) {
    m.role == Assistant && id in Ids(m.calls)
  }

  /** What providers demand: every tool result is preceded by an assistant message with its id. */
  ghost predicate Linked(ms: seq<Msg>) {
    forall i :: 0 <= i < |ms| && ms[i].role == Tool ==>
      exists j :: 0 <= j < i && Carries(ms[j], ms[i].callId)
  }

  lemma {:induction false} PendingComesFromAnAssistant(ms: seq<Msg>, k: nat)
    requires k < |Pending(ms)|
    ensures exists j :: 0 <= j < |ms| && Carries(ms[j], Pending(ms)[k])
  {
    var n := |ms| - 1;
    if ms[n].role == Tool {
      var front := ms[..n];
      PendingComesFromAnAssistant(front, k + 1);
      var j :| 0 <= j < n && Carries(front[j], Pending(front)[k + 1]);
      assert Carries(ms[j], Pending(ms)[k]);
    } else {
      assert Carries(ms[n], Pending(ms)[k]);
    }
  }

  lemma {:induction false} BlockedIsLinked(ms: seq<Msg>)
    requires Blocked(ms)
    ensures Linked(ms)
  {
    if ms != [] {
      var n := |ms| - 1;
      BlockedIsLinked(ms[..n]);
      assert Linked(ms[..n]);
      if ms[n].role == Tool {
        PendingComesFromAnAssistant(ms[..n], 0);
        var j :| 0 <= j < n && Carries(ms[..n][j], ms[n].callId);
        assert Carries(ms[j], ms[n].callId);
      }
      forall i | 0 <= i < |ms| && ms[i].role == Tool
        ensures exists j :: 0 <= j < i && Carries(ms[j], ms[i].callId)
      {
        if i < n {
          var j :| 0 <= j < i && Carries(ms[..n][j], ms[..n][i].callId);
          assert Carries(ms[j], ms[i].callId);
        }
      }
    }
  }

  lemma {:induction false} BlockedPrefix(ms: seq<Msg>, k: nat)
    requires Blocked(ms) && k <= |ms|
    ensures Blocked(ms[..k])
  {
    if k == |ms| {
      assert ms[..k] == ms;
    } else {
      BlockedPrefix(ms[..|ms| - 1], k);
      assert ms[..|ms| - 1][..k] == ms[..k];
    }
  }

  /** What awaits a result depends only on the messages since the last one that is not a result. */
  lemma {:induction false} PendingForgets(a: seq<Msg>, b: seq<Msg>)
    requires b != [] && b[0].role != Tool
    ensures Pending(a + b) == Pending(b)
  {
    var front := b[..|b| - 1];
    assert (a + b)[..|a + b| - 1] == a + front;
    if b[|b| - 1].role == Tool {
      PendingForgets(a, front);
    }
  }

  /** Cutting before, or joining at, a message that is not a tool result. */
  lemma {:induction false} BlockedJoin(a: seq<Msg>, b: seq<Msg>)
    requires b != [] && b[0].role != Tool
    ensures Blocked(a + b) <==> Settled(a) && Blocked(b)
  {
    var front := b[..|b| - 1];
    assert (a + b)[..|a + b| - 1] == a + front;
    if front == [] {
      assert a + front == a;
    } else {
      BlockedJoin(a, front);
      PendingForgets(a, front);
    }
  }

  lemma SettledJoin(a: seq<Msg>, b: seq<Msg>)
    requires b != [] ==> b[0].role != Tool
    requires Settled(a) && Settled(b)
    ensures Settled(a + b)
  {
    if b == [] {
      assert a + b == a;
    } else {
      BlockedJoin(a, b);
      PendingForgets(a, b);
    }
  }

  lemma {:induction false} PendingAfter(ms: seq<Msg>, j: nat, k: nat)
    requires Settled(ms) && j < |ms| && ms[j].role == Assistant && k <= |ms[j].calls|
    ensures j + 1 + k <= |ms| && Pending(ms[..j + 1 + k]) == Ids(ms[j].calls)[k..]
    ensures k > 0 ==> ms[j + k].role == Tool && ms[j + k].callId == ms[j].calls[k - 1].id
  {
    if k == 0 {
      assert ms[..j + 1][..j] == ms[..j];
    } else {
      PendingAfter(ms, j, k - 1);
      assert ms[..|ms|] == ms;
      BlockedPrefix(ms, j + 1 + k);
      assert ms[..j + 1 + k][..j + k] == ms[..j + k];
    }
  }

  /** In a settled list every call has its result, at the place of the call's position behind
      its assistant message. */
  lemma SettledAnswersEveryCall(ms: seq<Msg>, j: nat, k: nat)
    requires Settled(ms) && j < |ms| && ms[j].role == Assistant && k < |ms[j].calls|
    ensures j + 1 + k < |ms|
    ensures ms[j + 1 + k].role == Tool && ms[j + 1 + k].callId == ms[j].calls[k].id
  {
    PendingAfter(ms, j, k + 1);
  }
}
