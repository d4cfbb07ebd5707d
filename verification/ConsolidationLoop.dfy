/** The consolidation protocol as the agent loop performs it: fields updated in place, one
    method per stretch of code between two awaits. */
module ConsolidationLoop {
  import opened Prelude
  import opened Consolidation

  /** One prompt line per message that has content, in order. */
  function Lines(messages: seq<Msg>): seq<string> {
    if messages == [] then []
    else
      var last := messages[|messages| - 1];
      Lines(messages[..|messages| - 1])
        + if last.content == "" then [] else [last.role + ": " + last.content]
  }

  /** The messages that get a line. */
  function WithContent(messages: seq<Msg>): seq<Msg> {
    if messages == [] then []
    else
      var last := messages[|messages| - 1];
      WithContent(messages[..|messages| - 1]) + if last.content == "" then [] else [last]
  }

  /** Line i is about the i-th message with content; and (below) none of these is left out or told
      twice, and their order is that of the conversation. */
  lemma {:induction false} LinesTellEveryMessage(messages: seq<Msg>)
    ensures |Lines(messages)| == |WithContent(messages)|
    ensures forall i :: 0 <= i < |Lines(messages)| ==>
              Lines(messages)[i] == WithContent(messages)[i].role + ": " + WithContent(messages)[i].content
  {
    if messages != [] { LinesTellEveryMessage(messages[..|messages| - 1]); }
  }

  lemma {:induction false} WithContentIsExact(messages: seq<Msg>, m: Msg)
    ensures multiset(WithContent(messages))[m] == if m.content == "" then 0 else multiset(messages)[m]
  {
    if messages != [] {
      var n := |messages| - 1;
      WithContentIsExact(messages[..n], m);
      assert messages == messages[..n] + [messages[n]];
    }
  }

  lemma {:induction false} WithContentJoins(a: seq<Msg>, b: seq<Msg>)
    ensures WithContent(a + b) == WithContent(a) + WithContent(b)
    ensures Lines(a + b) == Lines(a) + Lines(b)
  {
    if b == [] {
      assert a + b == a;
    } else {
      assert (a + b)[..|a + b| - 1] == a + b[..|b| - 1];
      WithContentJoins(a, b[..|b| - 1]);
    }
  }

  method PromptLines(oldMessages: seq<Msg>) returns (lines: seq<string>)
    ensures lines == Lines(oldMessages) && |lines| == |WithContent(oldMessages)|
    ensures forall i :: 0 <= i < |lines| ==>
              lines[i] == WithContent(oldMessages)[i].role + ": " + WithContent(oldMessages)[i].content
  {
    LinesTellEveryMessage(oldMessages);
    lines := [];
    for i := 0 to |oldMessages|
      invariant lines == Lines(oldMessages[..i])
    {
      var m := oldMessages[i];
      assert oldMessages[..i + 1][..i] == oldMessages[..i];
      if m.content == "" { continue; }
      lines := lines + [m.role + ": " + m.content];
    }
    assert oldMessages[..|oldMessages|] == oldMessages;
  }

  class AgentLoop {
    const window: nat
    var objs: seq<Session>
    var cached: Option<nat>
    var disk: Session
    var files: Files
    var consolidating: bool
    var locked: bool
    var tasks: seq<Task>
    var busy: Busy

    ghost function Abs(): State
      reads this
    {
      State(objs, cached, disk, files, consolidating, locked, tasks, busy)
    }

    ghost predicate Valid()
      reads this
    {
      Inv(window, Abs())
    }

    constructor (window: nat)
      ensures this.window == window && Abs() == INITIAL && Valid()
    {
      this.window := window;
      objs, cached, disk := [], None, FRESH;
      files := Files([], "");
      consolidating, locked, tasks, busy := false, false, [], Free;
    }

    method GetOrCreateSession() returns (obj: nat)
      requires Valid()
      modifies this`objs, this`cached
      ensures (Abs(), obj) == GetOrCreate(old(Abs()))
      ensures obj < |objs|
    {
      if cached.Some? { return cached.value; }
      objs := objs + [disk];
      obj := |objs| - 1;
      cached := Some(obj);
    }

    /** A message arrives: fetch the session and perhaps start a background consolidation. */
    method BeginTurn()
      requires Valid() && busy == Free
      modifies this
      ensures Abs() == Apply(window, old(Abs()), TurnBegins) && Valid()
    {
      StepKeepsInv(window, Abs(), TurnBegins);
      var obj := GetOrCreateSession();
      busy := Turn(obj);
      var unconsolidated := |objs[obj].messages| - objs[obj].offset;
      if unconsolidated >= window && !consolidating {
        consolidating := true;
        tasks := tasks + [Waiting(obj)];
      }
    }

    /** A system message arrives; it never triggers a consolidation. */
    method BeginSystemTurn()
      requires Valid() && busy == Free
      modifies this
      ensures Abs() == Apply(window, old(Abs()), SystemTurnBegins) && Valid()
    {
      StepKeepsInv(window, Abs(), SystemTurnBegins);
      var obj := GetOrCreateSession();
      busy := Turn(obj);
    }

    /** The turn's new messages are appended one by one and the session is saved. */
    method SaveTurn(msgs: seq<Msg>)
      requires Valid() && busy.Turn?
      modifies this
      ensures Abs() == Apply(window, old(Abs()), TurnSaves(msgs)) && Valid()
    {
      StepKeepsInv(window, Abs(), TurnSaves(msgs));
      var obj := busy.obj;
      var session := objs[obj];
      for i := 0 to |msgs|
        invariant session == objs[obj].(messages := objs[obj].messages + msgs[..i])
      {
        session := session.(messages := session.messages + [msgs[i]]);
      }
      assert msgs[..|msgs|] == msgs;
      objs := objs[obj := session];
      tasks := CountAppended(tasks, obj, |msgs|);
      disk := session;
      cached := Some(obj);
      busy := Free;
    }

    /** A background task gets the lock and runs up to its model call, or finds nothing to do. */
    method GrabLock(k: nat)
      requires Valid() && k < |tasks| && tasks[k].Waiting? && !locked
      modifies this
      ensures Abs() == Apply(window, old(Abs()), TaskGrabsLock(k)) && Valid()
    {
      StepKeepsInv(window, Abs(), TaskGrabsLock(k));
      assert TaskOk(window, Abs(), tasks[k]);
      var obj := tasks[k].obj;
      var oldMessages := ChooseSlice(objs[obj]);
      if oldMessages == [] {
        tasks := tasks[k := Over];
        consolidating := false;
        return;
      }
      locked := true;
      tasks := tasks[k := InBody(obj, objs[obj].offset, objs[obj].offset + |oldMessages|, oldMessages,
                                 files.memory, 0)];
    }

    /** What a background consolidation hands to the model; nothing when it returns early. */
    method ChooseSlice(session: Session) returns (oldMessages: seq<Msg>)
      ensures oldMessages == OldMessages(window, session)
    {
      var keep := window / 2;
      if |session.messages| <= keep { return []; }
      if |session.messages| - session.offset <= 0 { return []; }
      oldMessages := Slice(session.messages, session.offset, -keep);
    }

    /** The writes after the model call returns. */
    method StoreReply(currentMemory: string, reply: Reply, io: Io) returns (ok: bool)
      modifies this`files
      ensures (files, ok) == Store(old(files), currentMemory, reply, io)
    {
      if !reply.Arguments? { return false; }
      if reply.entry != "" {
        if io.AppendFails? { return false; }
        files := files.(history := files.history + [reply.entry]);
      }
      if reply.update != "" && reply.update != currentMemory {
        if io.WriteFails? { return false; }
        files := files.(memory := reply.update);
      }
      ok := true;
    }

    method FinishTask(k: nat, reply: Reply, io: Io)
      requires Valid() && k < |tasks| && tasks[k].InBody?
      modifies this
      ensures Abs() == Apply(window, old(Abs()), TaskFinishes(k, reply, io)) && Valid()
    {
      StepKeepsInv(window, Abs(), TaskFinishes(k, reply, io));
      assert TaskOk(window, Abs(), tasks[k]);
      var t := tasks[k];
      var ok := StoreReply(t.memory, reply, io);
      if ok { MoveOffset(t); }
      locked := false;
      tasks := tasks[k := Over];
      consolidating := false;
    }

    method MoveOffset(t: Task)
      requires t.InBody? && t.obj < |objs|
      modifies this`objs
      ensures var session := old(objs[t.obj]);
        objs == old(objs)[t.obj := session.(
          offset := |session.messages| - window / 2,
          account := session.account + [Span(t.lo, t.hi, t.slice, t.appended)])]
    {
      var session := objs[t.obj];
      objs := objs[t.obj := session.(
        offset := |session.messages| - window / 2,
        account := session.account + [Span(t.lo, t.hi, t.slice, t.appended)])];
    }

    method ClearSession(obj: nat)
      requires obj < |objs|
      modifies this
      ensures Abs() == Consolidation.ClearSession(old(Abs()), obj)
    {
      objs := objs[obj := FRESH];
      disk := objs[obj];
      cached := None;
      busy := Free;
    }

    method BeginNew()
      requires Valid() && busy == Free
      modifies this
      ensures Abs() == Apply(window, old(Abs()), NewBegins) && Valid()
    {
      StepKeepsInv(window, Abs(), NewBegins);
      var obj := GetOrCreateSession();
      consolidating := true;
      busy := NewWaiting(obj, locked || SomeWaits(tasks));
    }

    /** `/new` holds the lock: an empty remainder clears at once, otherwise the archiving starts. */
    method GrabLockForNew()
      requires Valid() && busy.NewWaiting? && !locked
      modifies this
      ensures Abs() == Apply(window, old(Abs()), NewGrabsLock) && Valid()
    {
      StepKeepsInv(window, Abs(), NewGrabsLock);
      var obj := busy.obj;
      var snapshot := SliceFrom(objs[obj].messages, objs[obj].offset);
      if snapshot != [] {
        locked := true;
        busy := NewArchiving(obj, snapshot, files.memory);
      } else {
        consolidating := false;
        ClearSession(obj);
      }
    }

    method FinishNew(reply: Reply, io: Io)
      requires Valid() && busy.NewArchiving?
      modifies this
      ensures Abs() == Apply(window, old(Abs()), NewFinishes(reply, io)) && Valid()
    {
      StepKeepsInv(window, Abs(), NewFinishes(reply, io));
      var obj := busy.obj;
      var ok := StoreReply(busy.memory, reply, io);
      locked := false;
      consolidating := false;
      busy := Free;
      if ok { ClearSession(obj); }
    }

    /** `/stop` cancels a `/new` at either of its awaits: in the queue for the lock, or archiving. */
    method AbortNew()
      requires Valid() && ((busy.NewWaiting? && busy.suspended) || busy.NewArchiving?)
      modifies this
      ensures Abs() == Apply(window, old(Abs()), NewAborts) && Valid()
    {
      StepKeepsInv(window, Abs(), NewAborts);
      if busy.NewArchiving? { locked := false; }
      consolidating := false;
      busy := Free;
    }
  }
}
