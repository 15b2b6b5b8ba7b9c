/** JSON-RPC over the pipe of one engine process, shared by callers that may give up at any moment. */
module EngineBridge {
  import opened Wrappers

  /** What a caller wants: an answer to a request, or only a running engine. */
  datatype Want = Tool(request: string) | JustStart

  datatype Payload = Initialize | Request(request: string)

  datatype Body = Refusal(message: string) | Result(value: string)

  /** A line of the engine's output: a reply, a message without an id, text that does not parse, or JSON that
      is not an object. */
  datatype Line = Reply(id: nat, body: Body) | Notification | Garbage | NotAnObject

  /** A process: the requests written to it, under their ids and with their callers; what it answered; the
      lines it wrote that nobody has read yet; whether it was told that the handshake is complete. */
  datatype Process = Process(
    received: map<nat, (nat, Payload)>,
    answered: map<nat, Body>,
    stdout: seq<Line>,
    alive: bool,
    initialised: bool)

  const FRESH := Process(map[], map[], [], true, false)

  datatype Phase =
    | Waiting
    | Spawning
    | Shaking(p: nat, id: nat)
    | Shaken(p: nat)
    | Asking(p: nat, id: nat)
    | Closing

  datatype Call = Call(want: Want, phase: Phase)

  datatype Outcome = Answered(p: nat, id: nat, value: string) | Started | Failed

  /** One session and every process it ever started; `proc` is the current one, `nextId` its last id. */
  datatype Sys = Sys(
    procs: seq<Process>,
    proc: Option<nat>,
    nextId: nat,
    holder: Option<nat>,
    calls: map<nat, Call>,
    done: map<nat, (Want, Outcome)>)

  datatype Event =
    | Begin(c: nat, want: Want)
    | Acquire(c: nat)
    | Spawned(c: nat)
    | ReadLine(c: nat)
    | Continue(c: nat)
    | EndOfFile(c: nat)
    | Timeout(c: nat)
    | GiveUp(c: nat)
    | Reap
    | Answer(p: nat, id: nat, body: Body)
    | Chatter(p: nat, line: Line)
    | Die(p: nat)

  // ── steps ────────────────────────────────────────────────────────

  predicate Reads(phase: Phase) { phase.Shaking? || phase.Asking? }

  predicate Enabled(s: Sys, e: Event) {
    match e
    case Begin(c, _) => c !in s.calls && c !in s.done
    case Acquire(c) => c in s.calls && s.calls[c].phase.Waiting? && s.holder.None?
    case Spawned(c) => c in s.calls && s.calls[c].phase.Spawning?
    case ReadLine(c) => c in s.calls && HasLine(s, s.calls[c].phase)
    case Continue(c) => c in s.calls && s.calls[c].phase.Shaken?
    case EndOfFile(c) =>
      && c in s.calls && Reads(s.calls[c].phase) && s.calls[c].phase.p < |s.procs|
      && s.procs[s.calls[c].phase.p].stdout == []
    case Timeout(c) => c in s.calls && Reads(s.calls[c].phase)
    case GiveUp(c) => c in s.calls
    case Reap => true
    case Answer(p, id, _) =>
      && p < |s.procs| && s.procs[p].alive
      && id in s.procs[p].received && id !in s.procs[p].answered
    case Chatter(p, line) => p < |s.procs| && s.procs[p].alive && !line.Reply?
    case Die(p) => p < |s.procs|
  }

  predicate HasLine(s: Sys, phase: Phase) { Reads(phase) && phase.p < |s.procs| && s.procs[phase.p].stdout != [] }

  /** The process a new call can use without starting one. */
  predicate Running(s: Sys) { s.proc.Some? && s.proc.value < |s.procs| && s.procs[s.proc.value].alive }

  /** A call ends: it leaves, and the lock with it if it held it. */
  function End(s: Sys, c: nat, outcome: Outcome): (r: Sys)
    requires c in s.calls
    ensures r.procs == s.procs && r.proc == s.proc && r.nextId == s.nextId
  {
    s.(calls := s.calls - {c}, done := s.done[c := (s.calls[c].want, outcome)],
       holder := if s.holder == Some(c) then None else s.holder)
  }

  function At(s: Sys, c: nat, phase: Phase): Sys
    requires c in s.calls
  {
    s.(calls := s.calls[c := s.calls[c].(phase := phase)])
  }

  /** Writing a request to process p under the next id. */
  function Write(s: Sys, c: nat, p: nat, payload: Payload): Sys
    requires p < |s.procs|
  {
    var id := s.nextId + 1;
    s.(nextId := id, procs := s.procs[p := s.procs[p].(received := s.procs[p].received[id := (c, payload)])])
  }

  /** A started engine is at hand: send what is wanted, if anything. */
  function Ask(s: Sys, c: nat, p: nat): Sys
    requires c in s.calls && p < |s.procs|
  {
    match s.calls[c].want
    case JustStart => End(s, c, Started)
    case Tool(request) => At(Write(s, c, p, Request(request)), c, Asking(p, s.nextId + 1))
  }

  /** Writing the notification that completes a handshake. */
  function Greet(s: Sys, p: nat): Sys
    requires p < |s.procs|
  {
    s.(procs := s.procs[p := s.procs[p].(initialised := true)])
  }

  /** Reading on: what one line does to the caller that reads it. The result of a handshake is followed at once
      by the notification, to the session's process of that moment. */
  function TakeLine(s: Sys, c: nat, line: Line): (r: Sys)
    requires c in s.calls && Reads(s.calls[c].phase)
    ensures r.proc == s.proc && r.nextId == s.nextId && |r.procs| == |s.procs|
    ensures forall p :: 0 <= p < |s.procs| ==>
              r.procs[p] == s.procs[p] || r.procs[p] == s.procs[p].(initialised := true)
  {
    var phase := s.calls[c].phase;
    match line
    case Garbage => s
    case Notification => s
    case NotAnObject => End(s, c, Failed)
    case Reply(id, body) =>
      if id != phase.id then s
      else
        match body
        case Refusal(_) => End(s, c, Failed)
        case Result(value) =>
          if phase.Asking? then End(s, c, Answered(phase.p, id, value))
          else if s.proc.None? || s.proc.value >= |s.procs| then End(s, c, Failed)
          else At(Greet(s, s.proc.value), c, Shaken(phase.p))
  }

  function Pop(s: Sys, p: nat): Sys
    requires p < |s.procs| && s.procs[p].stdout != []
  {
    s.(procs := s.procs[p := s.procs[p].(stdout := s.procs[p].stdout[1..])])
  }

  function Apply(s: Sys, e: Event): Sys
    requires Enabled(s, e)
  {
    match e
    case Begin(c, want) => s.(calls := s.calls[c := Call(want, Waiting)])
    case Acquire(c) =>
      var held := s.(holder := Some(c));
      if Running(s) then Ask(held, c, s.proc.value) else At(held, c, Spawning)
    case Spawned(c) =>
      var p := |s.procs|;
      var started := s.(procs := s.procs + [FRESH], proc := Some(p), nextId := 0);
      At(Write(started, c, p, Initialize), c, Shaking(p, 1))
    case ReadLine(c) =>
      var p := s.calls[c].phase.p;
      TakeLine(Pop(s, p), c, s.procs[p].stdout[0])
    case Continue(c) =>
      if s.proc.Some? && s.proc.value < |s.procs| then Ask(s, c, s.proc.value) else End(s, c, Failed)
    case EndOfFile(c) => At(s.(proc := None), c, Closing)
    case Timeout(c) => At(s.(proc := None), c, Closing)
    case GiveUp(c) => End(s, c, Failed)
    case Reap => s.(proc := None)
    case Answer(p, id, body) =>
      s.(procs := s.procs[p := s.procs[p].(answered := s.procs[p].answered[id := body],
                                           stdout := s.procs[p].stdout + [Reply(id, body)])])
    case Chatter(p, line) => s.(procs := s.procs[p := s.procs[p].(stdout := s.procs[p].stdout + [line])])
    case Die(p) => s.(procs := s.procs[p := s.procs[p].(alive := false)])
  }

  const START := Sys([], None, 0, None, map[], map[])

  function After(es: seq<Event>): Option<Sys> {
    if es == [] then Some(START)
    else
      match After(es[..|es| - 1])
      case None => None
      case Some(s) => if Enabled(s, es[|es| - 1]) then Some(Apply(s, es[|es| - 1])) else None
  }

  // ── what every step keeps ────────────────────────────────────────

  /** Replies in the pipe are answers given, and answers are given to requests written. */
  predicate ProcessSound(q: Process) {
    && q.answered.Keys <= q.received.Keys
    && (forall i :: 0 <= i < |q.stdout| && q.stdout[i].Reply? ==>
          q.stdout[i].id in q.answered && q.answered[q.stdout[i].id] == q.stdout[i].body)
  }

  /** The payload a caller in this phase is waiting to see answered. */
  function Pending(call: Call): Option<Payload> {
    match call.phase
    case Shaking(_, _) => Some(Initialize)
    case Asking(_, _) => if call.want.Tool? then Some(Request(call.want.request)) else None
    case _ => None
  }

  /** Every call past waiting holds the lock. */
  predicate Locked(s: Sys, c: nat)
    requires c in s.calls
  {
    !s.calls[c].phase.Waiting? <==> s.holder == Some(c)
  }

  /** A caller works with the newest process, and what it waits for is what it wrote there. */
  predicate CallSound(s: Sys, c: nat)
    requires c in s.calls
  {
    var call, newest := s.calls[c], |s.procs| - 1;
    && (Reads(call.phase) ==>
          && call.phase.p == newest && newest >= 0 && call.phase.id in s.procs[newest].received
          && Pending(call).Some? && s.procs[newest].received[call.phase.id] == (c, Pending(call).value))
    && (call.phase.Shaking? ==> call.phase.id == 1 && !s.procs[newest].initialised)
    && (call.phase.Shaken? ==> call.phase.p == newest && newest >= 0 && s.procs[newest].initialised)
  }

  /** The ids written to the current process are exactly those up to the counter. */
  predicate CounterSound(s: Sys) {
    s.proc.Some? ==>
      && s.proc.value == |s.procs| - 1 && 1 <= s.nextId
      && (forall id :: id in s.procs[s.proc.value].received ==> 1 <= id <= s.nextId)
  }

  /** An outcome that carries a value carries the engine's answer to that very caller's request. */
  predicate DoneSound(s: Sys, c: nat)
    requires c in s.done
  {
    match s.done[c].1
    case Answered(p, id, value) =>
      && s.done[c].0.Tool? && p < |s.procs|
      && id in s.procs[p].received && s.procs[p].received[id] == (c, Request(s.done[c].0.request))
      && id in s.procs[p].answered && s.procs[p].answered[id] == Result(value)
    case _ => true
  }

  /** The first request of every process is the handshake. */
  predicate ShakenFirst(q: Process) {
    && 1 in q.received && q.received[1].1 == Initialize
    && forall id :: id in q.received && q.received[id].1 == Initialize ==> id == 1
  }

  /** A process told so has answered its handshake with a result. */
  predicate Greeted(q: Process) { q.initialised ==> 1 in q.answered && q.answered[1].Result? }

  predicate Inv(s: Sys) {
    && (forall p :: 0 <= p < |s.procs| ==> ProcessSound(s.procs[p]) && ShakenFirst(s.procs[p]) && Greeted(s.procs[p]))
    && (forall c :: c in s.calls ==> Locked(s, c) && CallSound(s, c))
    && (forall c :: c in s.done ==> DoneSound(s, c))
    && CounterSound(s)
    && s.calls.Keys !! s.done.Keys
    && (s.holder.Some? ==> s.holder.value in s.calls)
  }

  predicate Grows(q: Process, q': Process) {
    && (forall id :: id in q.received ==> id in q'.received && q'.received[id] == q.received[id])
    && (forall id :: id in q.answered ==> id in q'.answered && q'.answered[id] == q.answered[id])
    && (q.initialised ==> q'.initialised)
  }

  /** Processes are added, and gain requests and answers; nothing of that is ever taken back. */
  predicate Extends(s: Sys, s': Sys) {
    |s.procs| <= |s'.procs| && forall p :: 0 <= p < |s.procs| ==> Grows(s.procs[p], s'.procs[p])
  }

  lemma {:induction false} StepGrows(s: Sys, e: Event, p: nat)
    requires CounterSound(s) && Enabled(s, e) && p < |s.procs|
    ensures p < |Apply(s, e).procs| && Grows(s.procs[p], Apply(s, e).procs[p])
  {
    hide TakeLine, End;
    match e
    case Acquire(c) => assert Running(s) ==> s.nextId + 1 !in s.procs[s.proc.value].received;
    case Continue(c) => assert s.proc.Some? ==> s.nextId + 1 !in s.procs[s.proc.value].received;
    case _ =>
  }

  lemma {:induction false} StepExtends(s: Sys, e: Event)
    requires CounterSound(s) && Enabled(s, e)
    ensures Extends(s, Apply(s, e))
  {
    hide Apply, Enabled, Grows, CounterSound;
    forall p | 0 <= p < |s.procs| ensures p < |Apply(s, e).procs| && Grows(s.procs[p], Apply(s, e).procs[p]) {
      StepGrows(s, e, p);
    }
    if s.procs != [] {
      StepGrows(s, e, |s.procs| - 1);
    }
  }

  lemma {:induction false} StepKeepsCounter(s: Sys, e: Event)
    requires CounterSound(s) && Enabled(s, e)
    ensures CounterSound(Apply(s, e))
  {
  }

  lemma {:induction false} StepKeepsProcess(s: Sys, e: Event, p: nat)
    requires (forall r :: 0 <= r < |s.procs| ==> ProcessSound(s.procs[r]))
    requires Enabled(s, e) && p < |Apply(s, e).procs|
    ensures ProcessSound(Apply(s, e).procs[p])
  {
    hide TakeLine, End;
    if p < |s.procs| {
      assert ProcessSound(s.procs[p]);
    }
  }

  lemma {:induction false} StepKeepsShakenFirst(s: Sys, e: Event, p: nat)
    requires (forall r :: 0 <= r < |s.procs| ==> ShakenFirst(s.procs[r]))
    requires CounterSound(s) && Enabled(s, e) && p < |Apply(s, e).procs|
    ensures ShakenFirst(Apply(s, e).procs[p])
  {
    hide TakeLine, End;
    if p < |s.procs| {
      assert ShakenFirst(s.procs[p]);
    }
  }

  /** Only the caller that reads the result of its handshake completes it. */
  lemma {:induction false} WhoGreets(s: Sys, e: Event, p: nat)
    requires Inv(s) && Enabled(s, e) && p < |s.procs| && p < |Apply(s, e).procs|
    requires Apply(s, e).procs[p].initialised && !s.procs[p].initialised
    ensures e.ReadLine? && s.calls[e.c].phase == Shaking(p, 1) && s.proc == Some(p)
    ensures 1 in s.procs[p].answered && s.procs[p].answered[1].Result?
  {
    hide DoneSound, ShakenFirst, Locked, End;
    if e.ReadLine? {
      assert CallSound(s, e.c);
      var q := s.procs[s.calls[e.c].phase.p];
      assert ProcessSound(q);
      assert q.stdout[0].Reply? ==> q.answered[q.stdout[0].id] == q.stdout[0].body;
    }
  }

  lemma {:induction false} StepKeepsGreeted(s: Sys, e: Event, p: nat)
    requires Inv(s) && Enabled(s, e) && p < |Apply(s, e).procs|
    ensures Greeted(Apply(s, e).procs[p])
  {
    if p < |s.procs| {
      StepGrows(s, e, p);
      assert Greeted(s.procs[p]);
      if Apply(s, e).procs[p].initialised && !s.procs[p].initialised {
        WhoGreets(s, e, p);
      }
      hide Apply, Enabled, Inv;
    } else {
      hide TakeLine, End;
    }
  }

  lemma {:induction false} StepKeepsLock(s: Sys, e: Event, c: nat)
    requires Inv(s) && Enabled(s, e) && c in Apply(s, e).calls
    ensures Locked(Apply(s, e), c)
  {
    hide ProcessSound, ShakenFirst, CallSound, DoneSound, CounterSound;
    assert c in s.calls ==> Locked(s, c);
  }

  /** What a caller learns by reading a line. */
  lemma {:induction false} StepReads(s: Sys, c: nat)
    requires Inv(s) && Enabled(s, ReadLine(c))
    ensures var s', phase := Apply(s, ReadLine(c)), s.calls[c].phase;
            && (c in s'.calls && s'.calls[c].phase != phase ==>
                  && phase.Shaking? && s'.calls[c].phase == Shaken(phase.p)
                  && s'.procs[phase.p].initialised && s.procs[phase.p].stdout[0].Reply?
                  && 1 in s.procs[phase.p].answered && s.procs[phase.p].answered[1].Result?)
            && (c in s'.calls && s'.calls[c].phase == phase ==>
                  s'.procs[phase.p].initialised == s.procs[phase.p].initialised)
            && (c in s'.done && s'.done[c].1.Answered? ==>
                  && phase.Asking? && s'.done[c].1.p == phase.p && s'.done[c].1.id == phase.id
                  && phase.id in s.procs[phase.p].answered
                  && s.procs[phase.p].answered[phase.id] == Result(s'.done[c].1.value))
  {
    assert CallSound(s, c);
    var q := s.procs[s.calls[c].phase.p];
    assert ProcessSound(q);
    assert q.stdout[0].Reply? ==> q.answered[q.stdout[0].id] == q.stdout[0].body;
  }

  /** Once a handshake is complete its caller is past it. */
  lemma {:induction false} GreetingEndsShaking(s: Sys, e: Event, c: nat)
    requires Inv(s) && Enabled(s, e) && c in s.calls && s.calls[c].phase.Shaking?
    ensures s.calls[c].phase.p < |s.procs| && s.calls[c].phase.p < |Apply(s, e).procs|
    ensures Apply(s, e).procs[s.calls[c].phase.p].initialised ==>
              c !in Apply(s, e).calls || Apply(s, e).calls[c].phase != s.calls[c].phase
  {
    hide DoneSound, ProcessSound, ShakenFirst, Greeted;
    assert CallSound(s, c) && Locked(s, c);
    var p := s.calls[c].phase.p;
    StepGrows(s, e, p);
    if Apply(s, e).procs[p].initialised {
      WhoGreets(s, e, p);
      assert Locked(s, e.c);
      StepReads(s, c);
    }
  }

  /** Another's step, or the engine's, leaves a caller's own facts in place. */
  lemma {:induction false} OthersKeepCall(s: Sys, e: Event, c: nat)
    requires Inv(s) && Enabled(s, e) && c in s.calls && c in Apply(s, e).calls && Apply(s, e).calls[c] == s.calls[c]
    ensures CallSound(Apply(s, e), c)
  {
    hide ProcessSound, ShakenFirst, DoneSound, Greeted, TakeLine, End;
    assert CallSound(s, c) && Locked(s, c);
    StepExtends(s, e);
    if s.calls[c].phase.Shaking? {
      GreetingEndsShaking(s, e, c);
    }
    if Reads(s.calls[c].phase) || s.calls[c].phase.Shaken? {
      assert Grows(s.procs[s.calls[c].phase.p], Apply(s, e).procs[s.calls[c].phase.p]);
    }
  }

  lemma {:induction false} ReaderKeepsCall(s: Sys, c: nat)
    requires Inv(s) && Enabled(s, ReadLine(c)) && c in Apply(s, ReadLine(c)).calls
    requires Apply(s, ReadLine(c)).calls[c] != s.calls[c]
    ensures CallSound(Apply(s, ReadLine(c)), c)
  {
    assert CallSound(s, c);
    StepReads(s, c);
    hide ProcessSound, ShakenFirst, DoneSound, Locked, Greeted, CounterSound;
  }

  /** A caller's own step brings it into a phase whose facts hold. */
  lemma {:induction false} OwnStepKeepsCall(s: Sys, e: Event, c: nat)
    requires Inv(s) && Enabled(s, e) && c in s.calls && c in Apply(s, e).calls && Apply(s, e).calls[c] != s.calls[c]
    ensures CallSound(Apply(s, e), c)
  {
    hide ProcessSound, ShakenFirst, DoneSound, Locked, Grows, Greeted, TakeLine;
    assert CallSound(s, c);
    if e.ReadLine? {
      OnlyTheReaderMoves(s, e.c, c);
      ReaderKeepsCall(s, c);
    }
  }

  lemma {:induction false} OnlyTheReaderMoves(s: Sys, reader: nat, c: nat)
    requires Enabled(s, ReadLine(reader)) && c in s.calls && c in Apply(s, ReadLine(reader)).calls
    ensures c != reader ==> Apply(s, ReadLine(reader)).calls[c] == s.calls[c]
  {
  }

  lemma {:induction false} StepKeepsCalls(s: Sys, e: Event, c: nat)
    requires Inv(s) && Enabled(s, e) && c in Apply(s, e).calls
    ensures CallSound(Apply(s, e), c)
  {
    hide Inv;
    if c !in s.calls {
      assert Apply(s, e).calls[c].phase.Waiting?;
    } else if Apply(s, e).calls[c] == s.calls[c] {
      OthersKeepCall(s, e, c);
    } else {
      OwnStepKeepsCall(s, e, c);
    }
  }

  lemma {:induction false} OutcomeLasts(s: Sys, s': Sys, c: nat)
    requires c in s.done && DoneSound(s, c) && Extends(s, s') && c in s'.done && s'.done[c] == s.done[c]
    ensures DoneSound(s', c)
  {
    match s.done[c].1
    case Answered(p, _, _) => assert Grows(s.procs[p], s'.procs[p]);
    case _ =>
  }

  /** Only the reader of a line can end with a value. */
  lemma {:induction false} OnlyReadersAreAnswered(s: Sys, e: Event, c: nat)
    requires Enabled(s, e) && c !in s.done && c in Apply(s, e).done && Apply(s, e).done[c].1.Answered?
    ensures e == ReadLine(c) && c in s.calls && Apply(s, e).done[c].0 == s.calls[c].want
  {
  }

  lemma {:induction false} OutcomesStay(s: Sys, e: Event, c: nat)
    requires s.calls.Keys !! s.done.Keys && Enabled(s, e) && c in s.done
    ensures c in Apply(s, e).done && Apply(s, e).done[c] == s.done[c]
  {
  }

  lemma {:induction false} StepKeepsDone(s: Sys, e: Event, c: nat)
    requires Inv(s) && Enabled(s, e) && c in Apply(s, e).done
    ensures DoneSound(Apply(s, e), c)
  {
    hide ShakenFirst, Locked, TakeLine;
    StepExtends(s, e);
    var s' := Apply(s, e);
    if c in s.done {
      OutcomesStay(s, e, c);
      OutcomeLasts(s, s', c);
    } else if s'.done[c].1.Answered? {
      OnlyReadersAreAnswered(s, e, c);
      StepReads(s, c);
      assert CallSound(s, c);
      assert Grows(s.procs[s.calls[c].phase.p], s'.procs[s.calls[c].phase.p]);
    }
  }

  /** Calls end once, and the lock goes with them. */
  predicate Booked(s: Sys) { s.calls.Keys !! s.done.Keys && (s.holder.Some? ==> s.holder.value in s.calls) }

  lemma {:induction false} StepKeepsBooks(s: Sys, e: Event)
    requires Booked(s) && Enabled(s, e)
    ensures Booked(Apply(s, e))
  {
  }

  lemma {:induction false} StepKeepsInv(s: Sys, e: Event)
    requires Inv(s) && Enabled(s, e)
    ensures Inv(Apply(s, e))
  {
    hide Apply, Enabled, Locked, CallSound, DoneSound, ProcessSound, ShakenFirst, Greeted, CounterSound;
    var s' := Apply(s, e);
    StepKeepsCounter(s, e);
    StepKeepsBooks(s, e);
    forall p | 0 <= p < |s'.procs|
      ensures ProcessSound(s'.procs[p]) && ShakenFirst(s'.procs[p]) && Greeted(s'.procs[p])
    {
      StepKeepsProcess(s, e, p);
      StepKeepsShakenFirst(s, e, p);
      StepKeepsGreeted(s, e, p);
    }
    forall c | c in s'.calls ensures Locked(s', c) && CallSound(s', c) {
      StepKeepsLock(s, e, c);
      StepKeepsCalls(s, e, c);
    }
    forall c | c in s'.done ensures DoneSound(s', c) { StepKeepsDone(s, e, c); }
  }

  lemma {:induction false} EveryRunKeepsInv(es: seq<Event>)
    requires After(es).Some?
    ensures Inv(After(es).value)
  {
    hide Apply, Enabled;
    if es != [] {
      var n := |es| - 1;
      EveryRunKeepsInv(es[..n]);
      StepKeepsInv(After(es[..n]).value, es[n]);
    }
  }

  lemma {:induction false} ProcessesStay(s: Sys, e: Event)
    requires Inv(s) && Enabled(s, e)
    ensures |s.procs| <= |Apply(s, e).procs|
  {
    StepExtends(s, e);
  }

  // ── every reply reaches its own caller ───────────────────────────

  /** In every interleaving of callers that come, give up, time out or are torn down, with notifications and
      stray lines in the pipe and processes dying: a value returned to a caller is the engine's answer to
      that caller's own request on that process, although every process counts its ids from one again. */
  lemma {:induction false} RepliesReachTheirCallers(es: seq<Event>, c: nat)
    requires After(es).Some? && c in After(es).value.done && After(es).value.done[c].1.Answered?
    ensures var s := After(es).value;
            var (want, outcome) := s.done[c];
            && want.Tool? && outcome.p < |s.procs|
            && outcome.id in s.procs[outcome.p].received
            && s.procs[outcome.p].received[outcome.id] == (c, Request(want.request))
            && outcome.id in s.procs[outcome.p].answered
            && s.procs[outcome.p].answered[outcome.id] == Result(outcome.value)
  {
    EveryRunKeepsInv(es);
    assert DoneSound(After(es).value, c);
  }

  /** No answer is returned twice. */
  lemma {:induction false} NoAnswerIsReturnedTwice(es: seq<Event>, a: nat, b: nat)
    requires After(es).Some? && a in After(es).value.done && b in After(es).value.done && a != b
    requires After(es).value.done[a].1.Answered? && After(es).value.done[b].1.Answered?
    ensures var s := After(es).value;
            s.done[a].1.p != s.done[b].1.p || s.done[a].1.id != s.done[b].1.id
  {
    RepliesReachTheirCallers(es, a);
    RepliesReachTheirCallers(es, b);
  }

  // ── and is not lost on the way ───────────────────────────────────

  predicate InPipe(q: Process, id: nat) {
    exists i :: 0 <= i < |q.stdout| && q.stdout[i].Reply? && q.stdout[i].id == id
  }

  /** Each reply is in the pipe once at most, and while its caller waits it is there. */
  predicate Unread(s: Sys) {
    && (forall p, i, j :: 0 <= p < |s.procs| && 0 <= i < j < |s.procs[p].stdout| &&
                          s.procs[p].stdout[i].Reply? && s.procs[p].stdout[j].Reply? ==>
          s.procs[p].stdout[i].id != s.procs[p].stdout[j].id)
    && (forall c :: c in s.calls && Reads(s.calls[c].phase) && s.calls[c].phase.p < |s.procs| &&
                    s.calls[c].phase.id in s.procs[s.calls[c].phase.p].answered ==>
          InPipe(s.procs[s.calls[c].phase.p], s.calls[c].phase.id))
  }

  lemma {:induction false} StepKeepsPipesDistinct(s: Sys, e: Event, p: nat, i: nat, j: nat)
    requires Inv(s) && Unread(s) && Enabled(s, e) && p < |Apply(s, e).procs|
    requires i < j < |Apply(s, e).procs[p].stdout|
    requires Apply(s, e).procs[p].stdout[i].Reply? && Apply(s, e).procs[p].stdout[j].Reply?
    ensures Apply(s, e).procs[p].stdout[i].id != Apply(s, e).procs[p].stdout[j].id
  {
    hide CallSound, DoneSound, Locked, ShakenFirst, CounterSound, TakeLine, End;
    if p < |s.procs| {
      assert ProcessSound(s.procs[p]);
      if e.ReadLine? && s.calls[e.c].phase.p == p {
        assert Apply(s, e).procs[p].stdout == s.procs[p].stdout[1..];
      }
    }
  }

  lemma {:induction false} StillInPipe(q: Process, q': Process, id: nat)
    requires InPipe(q, id) && q.stdout <= q'.stdout
    ensures InPipe(q', id)
  {
    var i :| 0 <= i < |q.stdout| && q.stdout[i].Reply? && q.stdout[i].id == id;
    assert q'.stdout[i] == q.stdout[i];
  }

  lemma {:induction false} StepKeepsUnread(s: Sys, e: Event)
    requires Inv(s) && Unread(s) && Enabled(s, e)
    ensures Unread(Apply(s, e))
  {
    var s' := Apply(s, e);
    forall p, i, j | 0 <= p < |s'.procs| && 0 <= i < j < |s'.procs[p].stdout| &&
                     s'.procs[p].stdout[i].Reply? && s'.procs[p].stdout[j].Reply?
      ensures s'.procs[p].stdout[i].id != s'.procs[p].stdout[j].id
    {
      StepKeepsPipesDistinct(s, e, p, i, j);
    }
    forall c | c in s'.calls && Reads(s'.calls[c].phase) && s'.calls[c].phase.p < |s'.procs| &&
               s'.calls[c].phase.id in s'.procs[s'.calls[c].phase.p].answered
      ensures InPipe(s'.procs[s'.calls[c].phase.p], s'.calls[c].phase.id)
    {
      StepKeepsReply(s, e, c);
    }
  }

  /** Reading the line in front of a reply brings the reply one line nearer. */
  lemma {:induction false} ReplyMovesUp(q: Process, q': Process, id: nat)
    requires InPipe(q, id) && q.stdout != [] && q'.stdout == q.stdout[1..]
    requires !(q.stdout[0].Reply? && q.stdout[0].id == id)
    ensures InPipe(q', id)
  {
    var i :| 0 <= i < |q.stdout| && q.stdout[i].Reply? && q.stdout[i].id == id;
    assert q'.stdout[i - 1] == q.stdout[i];
  }

  /** A caller that reads a line and goes on waiting did not read its own reply. */
  lemma {:induction false} WaitingOnSkips(s: Sys, c: nat)
    requires Enabled(s, ReadLine(c)) && c in Apply(s, ReadLine(c)).calls
    requires Apply(s, ReadLine(c)).calls[c].phase == s.calls[c].phase
    ensures var p, id := s.calls[c].phase.p, s.calls[c].phase.id;
            && !(s.procs[p].stdout[0].Reply? && s.procs[p].stdout[0].id == id)
            && Apply(s, ReadLine(c)).procs[p].stdout == s.procs[p].stdout[1..]
            && Apply(s, ReadLine(c)).procs[p].answered == s.procs[p].answered
  {
  }

  /** Apart from reading, a step only adds to a pipe, and replies only as they are given. */
  lemma {:induction false} PipesGrow(s: Sys, e: Event, p: nat, id: nat)
    requires Enabled(s, e) && !e.ReadLine? && p < |s.procs| && p < |Apply(s, e).procs|
    ensures s.procs[p].stdout <= Apply(s, e).procs[p].stdout
    ensures id in Apply(s, e).procs[p].answered && id !in s.procs[p].answered ==> InPipe(Apply(s, e).procs[p], id)
  {
    hide TakeLine, End;
    var q, q' := s.procs[p], Apply(s, e).procs[p];
    if id in q'.answered && id !in q.answered {
      assert q'.stdout[|q.stdout|] == Reply(id, e.body);
    }
  }

  lemma {:induction false} WaitersKeepReply(s: Sys, e: Event, c: nat)
    requires Inv(s) && Unread(s) && Enabled(s, e) && c in s.calls && c in Apply(s, e).calls
    requires Reads(s.calls[c].phase) && Apply(s, e).calls[c].phase == s.calls[c].phase
    ensures s.calls[c].phase.p < |s.procs| && s.calls[c].phase.p < |Apply(s, e).procs|
    ensures s.calls[c].phase.id in Apply(s, e).procs[s.calls[c].phase.p].answered ==>
              InPipe(Apply(s, e).procs[s.calls[c].phase.p], s.calls[c].phase.id)
  {
    hide DoneSound, ShakenFirst, ProcessSound, Greeted, TakeLine, End, InPipe;
    assert CallSound(s, c) && Locked(s, c);
    var p, id := s.calls[c].phase.p, s.calls[c].phase.id;
    ProcessesStay(s, e);
    if e.ReadLine? {
      assert Locked(s, e.c);
      WaitingOnSkips(s, c);
      if id in s.procs[p].answered {
        ReplyMovesUp(s.procs[p], Apply(s, e).procs[p], id);
      }
    } else {
      PipesGrow(s, e, p, id);
      if id in s.procs[p].answered {
        StillInPipe(s.procs[p], Apply(s, e).procs[p], id);
      }
    }
  }

  lemma {:induction false} StepKeepsReply(s: Sys, e: Event, c: nat)
    requires Inv(s) && Unread(s) && Enabled(s, e)
    requires c in Apply(s, e).calls && Reads(Apply(s, e).calls[c].phase)
    requires Apply(s, e).calls[c].phase.p < |Apply(s, e).procs|
    requires Apply(s, e).calls[c].phase.id in Apply(s, e).procs[Apply(s, e).calls[c].phase.p].answered
    ensures InPipe(Apply(s, e).procs[Apply(s, e).calls[c].phase.p], Apply(s, e).calls[c].phase.id)
  {
    hide Inv, Unread, Apply, InPipe;
    if c in s.calls && s.calls[c].phase == Apply(s, e).calls[c].phase {
      WaitersKeepReply(s, e, c);
    } else {
      NewReadersHaveNoAnswerYet(s, e, c);
    }
  }

  lemma {:induction false} NewReadersHaveNoAnswerYet(s: Sys, e: Event, c: nat)
    requires Inv(s) && Enabled(s, e) && c in Apply(s, e).calls && Reads(Apply(s, e).calls[c].phase)
    requires c in s.calls ==> s.calls[c].phase != Apply(s, e).calls[c].phase
    ensures Apply(s, e).calls[c].phase.p < |Apply(s, e).procs|
    ensures Apply(s, e).calls[c].phase.id !in Apply(s, e).procs[Apply(s, e).calls[c].phase.p].answered
  {
    hide DoneSound, ShakenFirst, Locked;
    assert c in s.calls ==> CallSound(s, c);
    if s.proc.Some? {
      assert ProcessSound(s.procs[s.proc.value]);
    }
  }

  lemma {:induction false} EveryRunKeepsUnread(es: seq<Event>)
    requires After(es).Some?
    ensures Unread(After(es).value)
  {
    hide Apply, Enabled;
    if es != [] {
      var n := |es| - 1;
      EveryRunKeepsInv(es[..n]);
      EveryRunKeepsUnread(es[..n]);
      StepKeepsUnread(After(es[..n]).value, es[n]);
    }
  }

  /** A caller that keeps reading while there are lines. */
  function ReadOn(s: Sys, c: nat): Sys
    decreases if c in s.calls && HasLine(s, s.calls[c].phase) then |s.procs[s.calls[c].phase.p].stdout| else 0
  {
    if c in s.calls && HasLine(s, s.calls[c].phase) then ReadOn(Apply(s, ReadLine(c)), c) else s
  }

  lemma {:induction false} ReadingShortens(s: Sys, c: nat)
    requires Enabled(s, ReadLine(c))
    ensures var s', p := Apply(s, ReadLine(c)), s.calls[c].phase.p;
            c in s'.calls && HasLine(s', s'.calls[c].phase) ==>
              s'.calls[c].phase.p == p && |s'.procs[p].stdout| < |s.procs[p].stdout|
  {
  }

  /** A line that the reader waiting for this id passes over. */
  predicate Skipped(line: Line, id: nat) { line.Garbage? || line.Notification? || (line.Reply? && line.id != id) }

  lemma {:induction false} ReadsUpTo(s: Sys, c: nat, k: nat, value: string)
    requires c in s.calls && s.calls[c].phase.Asking? && s.calls[c].phase.p < |s.procs|
    requires k < |s.procs[s.calls[c].phase.p].stdout|
    requires s.procs[s.calls[c].phase.p].stdout[k] == Reply(s.calls[c].phase.id, Result(value))
    requires forall i :: 0 <= i < k ==> Skipped(s.procs[s.calls[c].phase.p].stdout[i], s.calls[c].phase.id)
    ensures c in ReadOn(s, c).done
    ensures ReadOn(s, c).done[c] == (s.calls[c].want, Answered(s.calls[c].phase.p, s.calls[c].phase.id, value))
    decreases k
  {
    var next := Apply(s, ReadLine(c));
    var phase := s.calls[c].phase;
    if k > 0 {
      assert Skipped(s.procs[phase.p].stdout[0], phase.id);
      assert next == Pop(s, phase.p);
      assert next.procs[phase.p].stdout == s.procs[phase.p].stdout[1..];
      ReadsUpTo(next, c, k - 1, value);
    }
  }

  /** The reply to this request stands in the pipe before its i-th line. */
  predicate AnsweredBefore(q: Process, id: nat, i: nat) {
    i <= |q.stdout| && exists j :: 0 <= j < i && q.stdout[j].Reply? && q.stdout[j].id == id
  }

  /** Once the engine has answered a waiting caller with a result, that caller gets it by reading on, past
      whatever else is in the pipe, unless a line that is not an object comes first. */
  lemma {:induction false} AnAnswerIsNeverPassedOver(es: seq<Event>, c: nat)
    requires After(es).Some? && c in After(es).value.calls && After(es).value.calls[c].phase.Asking?
    requires var s := After(es).value;
             var phase := s.calls[c].phase;
             && phase.p < |s.procs| && phase.id in s.procs[phase.p].answered
             && s.procs[phase.p].answered[phase.id].Result?
             && forall i :: 0 <= i < |s.procs[phase.p].stdout| && s.procs[phase.p].stdout[i].NotAnObject? ==>
                  AnsweredBefore(s.procs[phase.p], phase.id, i)
    ensures var s := After(es).value;
            var phase := s.calls[c].phase;
            && c in ReadOn(s, c).done
            && ReadOn(s, c).done[c] ==
               (s.calls[c].want, Answered(phase.p, phase.id, s.procs[phase.p].answered[phase.id].value))
  {
    hide Apply, Enabled, ReadOn, CallSound, DoneSound;
    var s := After(es).value;
    EveryRunKeepsInv(es);
    EveryRunKeepsUnread(es);
    var phase := s.calls[c].phase;
    var q := s.procs[phase.p];
    assert InPipe(q, phase.id) && ProcessSound(q);
    var k :| 0 <= k < |q.stdout| && q.stdout[k].Reply? && q.stdout[k].id == phase.id;
    forall i | 0 <= i < k ensures Skipped(q.stdout[i], phase.id) {
      if q.stdout[i].Reply? { assert q.stdout[i].id != q.stdout[k].id; }
      assert !AnsweredBefore(q, phase.id, i);
    }
    ReadsUpTo(s, c, k, q.answered[phase.id].value);
  }

  // ── processes that were given up ─────────────────────────────────

  /** Nobody uses this process any more, nor will. */
  predicate Dropped(s: Sys, p: nat) {
    && p < |s.procs| && s.proc != Some(p)
    && forall c :: c in s.calls && (Reads(s.calls[c].phase) || s.calls[c].phase.Shaken?) ==> s.calls[c].phase.p != p
  }

  lemma {:induction false} DroppedForGood(s: Sys, e: Event, p: nat)
    requires Inv(s) && Enabled(s, e) && Dropped(s, p)
    ensures p < |Apply(s, e).procs| && Dropped(Apply(s, e), p)
    ensures Apply(s, e).procs[p].received == s.procs[p].received
  {
    hide CallSound, DoneSound, Locked, ProcessSound, ShakenFirst, Greeted;
    assert s.proc.Some? ==> s.proc.value == |s.procs| - 1;
    ProcessesStay(s, e);
    OnlyTheCurrentIsWrittenTo(s, e, p);
  }

  lemma {:induction false} OnlyTheCurrentIsWrittenTo(s: Sys, e: Event, p: nat)
    requires CounterSound(s) && Enabled(s, e) && p < |s.procs| && s.proc != Some(p) && p < |Apply(s, e).procs|
    ensures Apply(s, e).procs[p].received == s.procs[p].received
  {
    hide TakeLine, End;
  }

  lemma {:induction false} DroppedStaysDropped(es: seq<Event>, m: nat, p: nat)
    requires After(es).Some? && m <= |es| && After(es[..m]).Some? && Dropped(After(es[..m]).value, p)
    ensures p < |After(es[..m]).value.procs| && Dropped(After(es).value, p) && p < |After(es).value.procs|
    ensures After(es).value.procs[p].received == After(es[..m]).value.procs[p].received
    decreases |es|
  {
    hide Apply, Enabled, Inv;
    if m < |es| {
      var n := |es| - 1;
      assert es[..n][..m] == es[..m];
      DroppedStaysDropped(es[..n], m, p);
      EveryRunKeepsInv(es[..n]);
      DroppedForGood(After(es[..n]).value, es[n], p);
    } else {
      assert es[..m] == es;
    }
  }

  /** After a timeout nothing is ever read from that process or written to it again, so its late reply
      cannot be taken for another call's. */
  lemma {:induction false} ALateReplyIsNeverRead(es: seq<Event>, m: nat)
    requires After(es).Some? && m < |es| && After(es[..m]).Some? && es[m].Timeout? &&
             Enabled(After(es[..m]).value, es[m])
    ensures var s, p := After(es[..m]).value, After(es[..m]).value.calls[es[m].c].phase.p;
            && p < |s.procs| && Dropped(After(es).value, p)
            && After(es).value.procs[p].received == s.procs[p].received
  {
    hide Inv;
    EveryRunKeepsInv(es[..m]);
    TimeoutDrops(After(es[..m]).value, es[m].c);
    assert es[..m + 1][..m] == es[..m];
    DroppedStaysDropped(es, m + 1, After(es[..m]).value.calls[es[m].c].phase.p);
  }

  lemma {:induction false} TimeoutDrops(s: Sys, c: nat)
    requires Inv(s) && Enabled(s, Timeout(c))
    ensures Dropped(Apply(s, Timeout(c)), s.calls[c].phase.p)
  {
    hide DoneSound, ProcessSound, ShakenFirst;
    assert Locked(s, c) && CallSound(s, c);
    forall b | b in s.calls && b != c ensures s.calls[b].phase.Waiting? {
      assert Locked(s, b);
    }
  }

  // ── the handshake ────────────────────────────────────────────────

  /** The step writes a tool request to a process that was never told its handshake is complete. */
  ghost predicate AsksTooEarly(s: Sys, e: Event)
    requires Enabled(s, e)
  {
    var s' := Apply(s, e);
    exists p, id :: 0 <= p < |s'.procs| && id in s'.procs[p].received && s'.procs[p].received[id].1.Request? &&
                    (p >= |s.procs| || id !in s.procs[p].received) && !s'.procs[p].initialised
  }

  /** The step in which a call gives up shaking hands with p: it is cancelled, or it reads a refusal or a line
      that is not an object. */
  predicate Abandons(s: Sys, e: Event, p: nat)
    requires Enabled(s, e)
  {
    match e
    case GiveUp(c) => s.calls[c].phase == Shaking(p, 1)
    case ReadLine(c) =>
      && s.calls[c].phase == Shaking(p, 1)
      && (s.procs[p].stdout[0].NotAnObject? ||
          (s.procs[p].stdout[0].Reply? && s.procs[p].stdout[0].id == 1 && s.procs[p].stdout[0].body.Refusal?))
    case _ => false
  }

  /** The i-th step of the run gives up shaking hands with p. */
  predicate AbandonedAt(es: seq<Event>, i: nat, p: nat) {
    && i < |es| && After(es[..i]).Some? && Enabled(After(es[..i]).value, es[i])
    && Abandons(After(es[..i]).value, es[i], p)
  }

  ghost predicate Abandoned(es: seq<Event>, p: nat) { exists i :: AbandonedAt(es, i, p) }

  ghost predicate BeingShaken(s: Sys, p: nat) { exists c :: c in s.calls && s.calls[c].phase == Shaking(p, 1) }

  lemma {:induction false} AbandonedLonger(es: seq<Event>, p: nat)
    requires es != []
    ensures Abandoned(es, p) <==> Abandoned(es[..|es| - 1], p) || AbandonedAt(es, |es| - 1, p)
  {
    hide Abandons, Enabled, After;
    var front := es[..|es| - 1];
    if i: nat :| AbandonedAt(es, i, p) && i < |es| - 1 {
      assert front[..i] == es[..i];
      assert AbandonedAt(front, i, p);
    }
    if i: nat :| AbandonedAt(front, i, p) {
      assert front[..i] == es[..i];
      assert AbandonedAt(es, i, p);
    }
  }

  /** Nobody else shakes hands with a process when its caller stops. */
  lemma {:induction false} AbandoningIsFinal(s: Sys, e: Event, p: nat)
    requires Inv(s) && Enabled(s, e) && Abandons(s, e, p)
    ensures p < |Apply(s, e).procs| && !Apply(s, e).procs[p].initialised && !BeingShaken(Apply(s, e), p)
  {
    hide DoneSound, ProcessSound, ShakenFirst, Greeted;
    assert CallSound(s, e.c) && Locked(s, e.c);
    StepGrows(s, e, p);
    if Apply(s, e).procs[p].initialised {
      WhoGreets(s, e, p);
    }
    forall b | b in s.calls && b != e.c ensures s.calls[b].phase.Waiting? {
      assert Locked(s, b);
    }
  }

  /** A process that is neither told nor being told stays so. */
  lemma {:induction false} ForgottenStaysForgotten(s: Sys, e: Event, p: nat)
    requires Inv(s) && Enabled(s, e) && p < |s.procs| && !s.procs[p].initialised && !BeingShaken(s, p)
    ensures p < |Apply(s, e).procs| && !Apply(s, e).procs[p].initialised && !BeingShaken(Apply(s, e), p)
  {
    hide DoneSound, ProcessSound, ShakenFirst, Greeted, Locked, CallSound;
    StepGrows(s, e, p);
    if Apply(s, e).procs[p].initialised {
      WhoGreets(s, e, p);
    }
    forall c | c in Apply(s, e).calls ensures Apply(s, e).calls[c].phase != Shaking(p, 1) {
      assert c in s.calls ==> s.calls[c].phase != Shaking(p, 1);
    }
  }

  /** A handshake under way goes on, is completed, is given up, or its process is dropped. */
  lemma {:induction false} HandshakeGoesOn(s: Sys, e: Event, p: nat)
    requires Inv(s) && Enabled(s, e) && s.proc == Some(p) && BeingShaken(s, p)
    ensures p < |Apply(s, e).procs|
    ensures Apply(s, e).proc == Some(p) ==>
              Apply(s, e).procs[p].initialised || BeingShaken(Apply(s, e), p) || Abandons(s, e, p)
  {
    hide DoneSound, ProcessSound, ShakenFirst, Greeted, Locked, BeingShaken;
    var c := TheShaker(s, p);
    assert CallSound(s, c);
    var s' := Apply(s, e);
    assert c in s'.calls && s'.calls[c] == s.calls[c] ==> BeingShaken(s', p) by {
      if c in s'.calls && s'.calls[c] == s.calls[c] { ShakerShakes(s', p, c); }
    }
  }

  lemma {:induction false} TheShaker(s: Sys, p: nat) returns (c: nat)
    requires BeingShaken(s, p)
    ensures c in s.calls && s.calls[c].phase == Shaking(p, 1)
  {
    c :| c in s.calls && s.calls[c].phase == Shaking(p, 1);
  }

  lemma {:induction false} ShakerShakes(s: Sys, p: nat, c: nat)
    requires c in s.calls && s.calls[c].phase == Shaking(p, 1)
    ensures BeingShaken(s, p)
  {
  }

  /** What became of the handshake of each process. */
  lemma {:induction false} FateOfTheHandshake(es: seq<Event>, p: nat)
    requires After(es).Some? && p < |After(es).value.procs|
    ensures var s := After(es).value;
            && (Abandoned(es, p) ==> !s.procs[p].initialised && !BeingShaken(s, p))
            && (s.proc == Some(p) ==> s.procs[p].initialised || BeingShaken(s, p) || Abandoned(es, p))
  {
    hide Apply, Enabled, Inv, Abandons, AbandonedAt, Abandoned, BeingShaken;
    var n := |es| - 1;
    var s, e := After(es[..n]).value, es[n];
    EveryRunKeepsInv(es[..n]);
    AbandonedLonger(es, p);
    FateStep(es[..n], s, e, p);
    assert AbandonedAt(es, n, p) <==> Abandons(s, e, p) by { AbandonedNow(es, s, e, p); }
    if p < |s.procs| {
      FateOfTheHandshake(es[..n], p);
    } else {
      NothingAbandonedYet(es[..n], p);
    }
  }

  lemma {:induction false} AbandonedNow(es: seq<Event>, s: Sys, e: Event, p: nat)
    requires es != [] && After(es[..|es| - 1]) == Some(s) && e == es[|es| - 1] && Enabled(s, e)
    ensures AbandonedAt(es, |es| - 1, p) <==> Abandons(s, e, p)
  {
  }

  lemma {:induction false} NothingAbandonedYet(es: seq<Event>, p: nat)
    requires After(es).Some? && p >= |After(es).value.procs|
    ensures !Abandoned(es, p)
  {
    hide Apply, Enabled, Inv, Abandons, AbandonedAt, Abandoned;
    if es == [] {
      assert !Abandoned(es, p) by { NoStepNoAbandoning(p); }
    } else {
      var n := |es| - 1;
      var s, e := After(es[..n]).value, es[n];
      EveryRunKeepsInv(es[..n]);
      AbandonedLonger(es, p);
      AbandonedNow(es, s, e, p);
      ProcessesStay(s, e);
      NothingAbandonedYet(es[..n], p);
      if Abandons(s, e, p) {
        AbandoningIsFinal(s, e, p);
      }
    }
  }

  lemma {:induction false} NoStepNoAbandoning(p: nat)
    ensures !Abandoned([], p)
  {
  }

  /** One step of that fate. */
  lemma {:induction false} FateStep(es: seq<Event>, s: Sys, e: Event, p: nat)
    requires Inv(s) && Enabled(s, e) && p < |Apply(s, e).procs|
    ensures Abandons(s, e, p) ==> !Apply(s, e).procs[p].initialised && !BeingShaken(Apply(s, e), p)
    ensures p < |s.procs| && !s.procs[p].initialised && !BeingShaken(s, p) ==>
              !Apply(s, e).procs[p].initialised && !BeingShaken(Apply(s, e), p)
    ensures p < |s.procs| && s.proc == Some(p) && Apply(s, e).proc == Some(p) &&
            (s.procs[p].initialised || BeingShaken(s, p)) ==>
              Apply(s, e).procs[p].initialised || BeingShaken(Apply(s, e), p) || Abandons(s, e, p)
    ensures p < |s.procs| && Apply(s, e).proc == Some(p) ==> s.proc == Some(p)
    ensures p >= |s.procs| ==> BeingShaken(Apply(s, e), p)
  {
    if Abandons(s, e, p) {
      AbandoningIsFinal(s, e, p);
    }
    if p < |s.procs| {
      StepGrows(s, e, p);
      if !s.procs[p].initialised && !BeingShaken(s, p) {
        ForgottenStaysForgotten(s, e, p);
      }
      if s.proc == Some(p) && BeingShaken(s, p) {
        HandshakeGoesOn(s, e, p);
      }
    } else {
      NewProcessIsShaken(s, e, p);
    }
  }

  lemma {:induction false} NewProcessIsShaken(s: Sys, e: Event, p: nat)
    requires Enabled(s, e) && |s.procs| <= p < |Apply(s, e).procs|
    ensures BeingShaken(Apply(s, e), p)
  {
    hide TakeLine, End;
    assert e.Spawned? && p == |s.procs|;
    assert Apply(s, e).calls[e.c].phase == Shaking(p, 1);
  }

  /** A tool request is written to the current process, by a caller that finds it running or has just
      shaken hands with it. */
  lemma {:induction false} WhoAsks(s: Sys, e: Event, p: nat, id: nat)
    requires CounterSound(s) && Enabled(s, e) && p < |Apply(s, e).procs|
    requires id in Apply(s, e).procs[p].received && Apply(s, e).procs[p].received[id].1.Request?
    requires p >= |s.procs| || id !in s.procs[p].received
    ensures (e.Acquire? && s.calls[e.c].want.Tool? && Running(s)) || e.Continue?
    ensures s.proc == Some(p) && p < |s.procs| && Apply(s, e).procs[p].initialised == s.procs[p].initialised
  {
    hide TakeLine, End;
  }

  lemma {:induction false} HandsWereShaken(s: Sys, c: nat)
    requires Inv(s) && Enabled(s, Continue(c)) && s.proc.Some?
    ensures s.proc.value < |s.procs| && s.procs[s.proc.value].initialised
  {
    assert CallSound(s, c);
  }

  /** Nobody shakes hands while the lock is free. */
  lemma {:induction false} FreeLockNoHandshake(s: Sys, p: nat)
    requires Inv(s) && s.holder.None?
    ensures !BeingShaken(s, p)
  {
    forall c | c in s.calls ensures s.calls[c].phase.Waiting? {
      assert Locked(s, c);
    }
  }

  lemma {:induction false} AsksTooEarlyWhen(s: Sys, e: Event)
    requires Inv(s) && Enabled(s, e)
    ensures AsksTooEarly(s, e) <==>
            e.Acquire? && s.calls[e.c].want.Tool? && Running(s) && !s.procs[s.proc.value].initialised
  {
    hide DoneSound, ProcessSound, Locked, ShakenFirst, CallSound;
    if e.Continue? && s.proc.Some? {
      HandsWereShaken(s, e.c);
    }
    if AsksTooEarly(s, e) {
      var p, id :| 0 <= p < |Apply(s, e).procs| && id in Apply(s, e).procs[p].received &&
                   Apply(s, e).procs[p].received[id].1.Request? &&
                   (p >= |s.procs| || id !in s.procs[p].received) && !Apply(s, e).procs[p].initialised;
      hide Apply;
      WhoAsks(s, e, p, id);
    } else if e.Acquire? && s.calls[e.c].want.Tool? && Running(s) {
      var p := s.proc.value;
      assert s.nextId + 1 in Apply(s, e).procs[p].received && s.nextId + 1 !in s.procs[p].received;
    }
  }

  /** A process is asked before its handshake is complete exactly when a caller finds it running and the call
      that was to shake hands with it had been cancelled, refused or broken off earlier in the run, however the
      engine may have answered since. A caller that shakes hands itself never asks too early. */
  lemma {:induction false} AskedTooEarlyExactlyWhen(es: seq<Event>, e: Event)
    requires After(es).Some? && Enabled(After(es).value, e)
    ensures var s := After(es).value;
            AsksTooEarly(s, e) <==>
            e.Acquire? && s.calls[e.c].want.Tool? && Running(s) && Abandoned(es, s.proc.value)
  {
    var s := After(es).value;
    EveryRunKeepsInv(es);
    AsksTooEarlyWhen(s, e);
    if e.Acquire? && Running(s) {
      FateOfTheHandshake(es, s.proc.value);
      FreeLockNoHandshake(s, s.proc.value);
    }
  }

  lemma {:induction false} OneMore(es: seq<Event>, s: Sys, e: Event) returns (es': seq<Event>, s': Sys)
    requires After(es) == Some(s) && Enabled(s, e)
    ensures After(es') == Some(s') && es' == es + [e] && s' == Apply(s, e)
  {
    es', s' := es + [e], Apply(s, e);
    assert es'[..|es|] == es;
  }

  /** The one process there is has been sent a tool request and was never told its handshake is complete. */
  predicate AskedUninitialised(s: Sys, request: string) {
    && |s.procs| == 1 && !s.procs[0].initialised && s.procs[0].received.Keys == {1, 2}
    && s.procs[0].received[2].1 == Request(request)
  }

  lemma {:induction false} HandshakeSent() returns (es: seq<Event>, s: Sys)
    ensures After(es) == Some(s) && es == [Begin(0, JustStart), Acquire(0), Spawned(0)]
    ensures s == Sys([FRESH.(received := map[1 := (0, Initialize)])], Some(0), 1, Some(0),
                     map[0 := Call(JustStart, Shaking(0, 1))], map[])
  {
    assert After([]) == Some(START);
    hide After;
    es, s := OneMore([], START, Begin(0, JustStart));
    es, s := OneMore(es, s, Acquire(0));
    es, s := OneMore(es, s, Spawned(0));
  }

  /** A first caller is cancelled while shaking hands; a second one finds the engine running. */
  lemma {:induction false} AfterACancelledHandshake(request: string) returns (es: seq<Event>, s: Sys)
    ensures After(es) == Some(s) && AskedUninitialised(s, request) && 1 !in s.procs[0].answered
    ensures es == [Begin(0, JustStart), Acquire(0), Spawned(0), GiveUp(0), Begin(1, Tool(request)), Acquire(1)]
  {
    es, s := HandshakeSent();
    hide After;
    es, s := OneMore(es, s, GiveUp(0));
    es, s := OneMore(es, s, Begin(1, Tool(request)));
    es, s := OneMore(es, s, Acquire(1));
  }

  /** The engine refuses the handshake; the caller fails, and the next one uses the engine all the same. */
  lemma {:induction false} AfterARefusedHandshake(request: string, message: string) returns (es: seq<Event>, s: Sys)
    ensures After(es) == Some(s) && AskedUninitialised(s, request) && s.procs[0].answered == map[1 := Refusal(message)]
    ensures es == [Begin(0, JustStart), Acquire(0), Spawned(0), Answer(0, 1, Refusal(message)), ReadLine(0),
                   Begin(1, Tool(request)), Acquire(1)]
  {
    es, s := HandshakeSent();
    hide After;
    es, s := OneMore(es, s, Answer(0, 1, Refusal(message)));
    assert s.procs[0].stdout == [Reply(1, Refusal(message))];
    es, s := OneMore(es, s, ReadLine(0));
    assert s.procs[0].stdout == [];
    es, s := OneMore(es, s, Begin(1, Tool(request)));
    es, s := OneMore(es, s, Acquire(1));
  }

  /** The engine answers a handshake whose caller has gone: nobody completes it. */
  lemma {:induction false} AfterALateAnswer(request: string, value: string) returns (es: seq<Event>, s: Sys)
    ensures After(es) == Some(s) && AskedUninitialised(s, request) && s.procs[0].answered == map[1 := Result(value)]
    ensures es == [Begin(0, JustStart), Acquire(0), Spawned(0), GiveUp(0), Answer(0, 1, Result(value)),
                   Begin(1, Tool(request)), Acquire(1)]
  {
    es, s := HandshakeSent();
    hide After;
    es, s := OneMore(es, s, GiveUp(0));
    es, s := OneMore(es, s, Answer(0, 1, Result(value)));
    es, s := OneMore(es, s, Begin(1, Tool(request)));
    es, s := OneMore(es, s, Acquire(1));
  }

  // ── the object ───────────────────────────────────────────────────

  /** A session with the pipes it has opened: one method per stretch of code between two awaits, and the
      read loop. */
  class CbmSession {
    var procs: seq<Process>
    var proc: Option<nat>
    var nextId: nat
    var holder: Option<nat>
    var calls: map<nat, Call>
    var done: map<nat, (Want, Outcome)>

    function View(): Sys
      reads this
    {
      Sys(procs, proc, nextId, holder, calls, done)
    }

    constructor ()
      ensures View() == START && Inv(View())
    {
      procs, proc, nextId, holder, calls, done := [], None, 0, None, map[], map[];
    }

    method CallTool(c: nat, want: Want)
      requires Inv(View()) && Enabled(View(), Begin(c, want))
      modifies this`calls
      ensures View() == Apply(old(View()), Begin(c, want)) && Inv(View())
    {
      StepKeepsInv(View(), Begin(c, want));
      calls := calls[c := Call(want, Waiting)];
    }

    method Leave(c: nat, outcome: Outcome)
      requires c in calls
      modifies this`calls, this`done, this`holder
      ensures View() == End(old(View()), c, outcome)
    {
      done := done[c := (calls[c].want, outcome)];
      calls := calls - {c};
      if holder == Some(c) { holder := None; }
    }

    method WriteRequest(c: nat, p: nat, payload: Payload) returns (id: nat)
      requires p < |procs|
      modifies this`nextId, this`procs
      ensures View() == Write(old(View()), c, p, payload) && id == nextId == old(nextId) + 1
    {
      nextId := nextId + 1;
      id := nextId;
      procs := procs[p := procs[p].(received := procs[p].received[id := (c, payload)])];
    }

    /** What follows once an engine is at hand. */
    method Proceed(c: nat, p: nat)
      requires c in calls && p < |procs|
      modifies this
      ensures View() == Ask(old(View()), c, p)
    {
      match calls[c].want
      case JustStart => Leave(c, Started);
      case Tool(request) =>
        var id := WriteRequest(c, p, Request(request));
        calls := calls[c := calls[c].(phase := Asking(p, id))];
    }

    method TakeLock(c: nat)
      requires Inv(View()) && Enabled(View(), Acquire(c))
      modifies this
      ensures View() == Apply(old(View()), Acquire(c)) && Inv(View())
    {
      StepKeepsInv(View(), Acquire(c));
      holder := Some(c);
      if Running(View()) {
        Proceed(c, proc.value);
      } else {
        calls := calls[c := calls[c].(phase := Spawning)];
      }
    }

    method ProcessStarted(c: nat)
      requires Inv(View()) && Enabled(View(), Spawned(c))
      modifies this
      ensures View() == Apply(old(View()), Spawned(c)) && Inv(View())
    {
      StepKeepsInv(View(), Spawned(c));
      var p := |procs|;
      procs, proc, nextId := procs + [FRESH], Some(p), 0;
      var id := WriteRequest(c, p, Initialize);
      calls := calls[c := calls[c].(phase := Shaking(p, id))];
    }

    /** One turn of the read loop, up to the next wait for a line. */
    method ReadOneLine(c: nat)
      requires Inv(View()) && Enabled(View(), ReadLine(c))
      modifies this
      ensures View() == Apply(old(View()), ReadLine(c)) && Inv(View())
    {
      StepKeepsInv(View(), ReadLine(c));
      hide Inv;
      var phase := calls[c].phase;
      var line := procs[phase.p].stdout[0];
      procs := procs[phase.p := procs[phase.p].(stdout := procs[phase.p].stdout[1..])];
      if line.NotAnObject? {
        Leave(c, Failed);
      } else if line.Reply? && line.id == phase.id {
        if line.body.Refusal? || (phase.Shaking? && (proc.None? || proc.value >= |procs|)) {
          Leave(c, Failed);
        } else if phase.Asking? {
          Leave(c, Answered(phase.p, line.id, line.body.value));
        } else {
          procs := procs[proc.value := procs[proc.value].(initialised := true)];
          calls := calls[c := calls[c].(phase := Shaken(phase.p))];
        }
      }
    }

    /** The read loop, for as long as there are lines: it stops at the first reply with its own id, or at a
        line that is not an object. */
    method ReadReply(c: nat)
      requires Inv(View()) && c in calls
      modifies this
      ensures View() == ReadOn(old(View()), c) && Inv(View())
    {
      hide Inv, TakeLine;
      while c in calls && HasLine(View(), calls[c].phase)
        invariant Inv(View()) && ReadOn(View(), c) == ReadOn(old(View()), c)
        decreases if c in calls && HasLine(View(), calls[c].phase) then |procs[calls[c].phase.p].stdout| else 0
      {
        ReadingShortens(View(), c);
        ReadOneLine(c);
      }
    }

    method Initialized(c: nat)
      requires Inv(View()) && Enabled(View(), Continue(c))
      modifies this
      ensures View() == Apply(old(View()), Continue(c)) && Inv(View())
    {
      StepKeepsInv(View(), Continue(c));
      if proc.Some? && proc.value < |procs| {
        Proceed(c, proc.value);
      } else {
        Leave(c, Failed);
      }
    }

    /** The pipe ended, or no line came in time: both tear the process down. */
    method Close(c: nat)
      requires Inv(View()) && Enabled(View(), Timeout(c))
      modifies this`proc, this`calls
      ensures View() == Apply(old(View()), Timeout(c)) && Inv(View())
      ensures Enabled(old(View()), EndOfFile(c)) ==> View() == Apply(old(View()), EndOfFile(c))
    {
      StepKeepsInv(View(), Timeout(c));
      proc := None;
      calls := calls[c := calls[c].(phase := Closing)];
    }

    method Reaped()
      requires Inv(View())
      modifies this`proc
      ensures View() == Apply(old(View()), Reap) && Inv(View())
    {
      StepKeepsInv(View(), Reap);
      proc := None;
    }
  }
}
