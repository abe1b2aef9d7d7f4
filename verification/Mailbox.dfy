/** Service calls to the 8051 (tvw_uc_service_call in src/util.c): the host and the micro share a
    busy register (0xf09f), argument registers (from 0xf0a0) and a done register (0xf09c). A schedule
    says how many steps the micro takes before each register access of the host, so a statement over
    all schedules is one over all interleavings. Register accesses are assumed to succeed. */
module Mailbox {
  import opened Words

  const FLAG: byte := 0x80
  const ARG_FILE: nat := 256
  const POLLS: nat := 10

  predicate Set(b: byte) { b & FLAG != 0 }

  type ArgFile = s: seq<byte> | |s| == ARG_FILE witness seq(ARG_FILE, _ => 0)

  type Schedule = nat -> nat

  /** A request as the micro picked it up. Tickets number the service ids the host has written. */
  datatype Job = Job(ticket: nat, code: byte, args: ArgFile)

  datatype Task = Idle | Working(job: Job)

  /** `clobbered` records whether the host ever wrote an argument or an id under a busy flag. */
  datatype Micro = Micro(busy: byte, args: ArgFile, done: byte, task: Task, completed: seq<Job>,
                         ticket: nat, clobbered: bool)

  /** One step of the 8051: it clears busy when it picks a request up, and later sets done. */
  function Tick(m: Micro): Micro {
    match m.task
    case Working(job) => m.(task := Idle, done := m.done | FLAG, completed := m.completed + [job])
    case Idle =>
      if Set(m.busy) then m.(task := Working(Job(m.ticket, m.busy, m.args)), busy := m.busy & 0x7f) else m
  }

  function Ticks(m: Micro, n: nat): Micro
    decreases n
  {
    if n == 0 then m else Ticks(Tick(m), n - 1)
  }

  /** The shared state and the number of register accesses the host has made. */
  datatype Shared = Shared(m: Micro, now: nat)

  function Turn(s: Shared, sched: Schedule): Shared {
    Shared(Ticks(s.m, sched(s.now)), s.now + 1)
  }

  function WriteArg(s: Shared, sched: Schedule, i: nat, v: byte): Shared
    requires i < ARG_FILE
  {
    var t := Turn(s, sched);
    t.(m := t.m.(args := t.m.args[i := v], clobbered := t.m.clobbered || Set(t.m.busy)))
  }

  function WriteArgs(s: Shared, sched: Schedule, args: seq<byte>): Shared
    requires |args| <= ARG_FILE
    decreases |args|
  {
    if args == [] then s
    else
      var n := |args| - 1;
      WriteArg(WriteArgs(s, sched, args[..n]), sched, n, args[n])
  }

  function WriteId(s: Shared, sched: Schedule, id: byte): Shared {
    var t := Turn(s, sched);
    t.(m := t.m.(busy := FLAG | id, ticket := t.m.ticket + 1, clobbered := t.m.clobbered || Set(t.m.busy)))
  }

  function Acknowledge(s: Shared, sched: Schedule): Shared {
    var t := Turn(s, sched);
    t.(m := t.m.(done := 0))
  }

  function Poll(s: Shared, sched: Schedule, left: nat): (Shared, bool)
    decreases left
  {
    if left == 0 then (s, false)
    else
      var t := Turn(s, sched);
      if Set(t.m.done) then (Acknowledge(t, sched), true) else Poll(t, sched, left - 1)
  }

  function Call(s: Shared, sched: Schedule, id: byte, args: seq<byte>): (Shared, bool)
    requires |args| < ARG_FILE
  {
    var t := Turn(s, sched);
    if Set(t.m.busy) then (t, false)
    else Poll(WriteId(WriteArgs(t, sched, args), sched, id), sched, POLLS)
  }

  // ---------- The host writes only while busy is clear ----------

  lemma {:induction false} TicksKeepClear(m: Micro, n: nat)
    requires !Set(m.busy)
    ensures !Set(Ticks(m, n).busy) && Ticks(m, n).clobbered == m.clobbered && Ticks(m, n).ticket == m.ticket
    ensures Ticks(m, n).args == m.args
    decreases n
  {
    if n > 0 { TicksKeepClear(Tick(m), n - 1); }
  }

  lemma {:induction false} TicksKeepHostState(m: Micro, n: nat)
    ensures Ticks(m, n).clobbered == m.clobbered && Ticks(m, n).ticket == m.ticket && Ticks(m, n).args == m.args
    decreases n
  {
    if n > 0 { TicksKeepHostState(Tick(m), n - 1); }
  }

  lemma {:induction false} ArgsWrittenClear(s: Shared, sched: Schedule, args: seq<byte>)
    requires !Set(s.m.busy) && |args| <= ARG_FILE
    ensures var t := WriteArgs(s, sched, args);
            && !Set(t.m.busy) && t.m.clobbered == s.m.clobbered && t.m.ticket == s.m.ticket
            && t.m.args[..|args|] == args && t.now == s.now + |args|
    decreases |args|
  {
    if args != [] {
      var n := |args| - 1;
      ArgsWrittenClear(s, sched, args[..n]);
      var t := WriteArgs(s, sched, args[..n]);
      TicksKeepClear(t.m, sched(t.now));
      var u := WriteArg(t, sched, n, args[n]);
      assert u.m.args[..n] == t.m.args[..n];
      assert u.m.args[..n + 1] == u.m.args[..n] + [args[n]];
    }
  }

  lemma {:induction false} PollWritesNothing(s: Shared, sched: Schedule, left: nat)
    ensures var (t, _) := Poll(s, sched, left);
            && t.m.clobbered == s.m.clobbered && t.m.ticket == s.m.ticket && t.m.args == s.m.args
            && t.now <= s.now + left + 1
    decreases left
  {
    if left > 0 {
      TicksKeepHostState(s.m, sched(s.now));
      var t := Turn(s, sched);
      TicksKeepHostState(t.m, sched(t.now));
      PollWritesNothing(t, sched, left - 1);
    }
  }

  /** From any state, timeouts or not: no write under a busy flag, and at most ten polls. A call that finds busy set
      returns false after this one access, and leaves everything to the micro. */
  lemma NeverClobbers(s: Shared, sched: Schedule, id: byte, args: seq<byte>)
    requires |args| < ARG_FILE
    ensures Call(s, sched, id, args).0.m.clobbered == s.m.clobbered
    ensures Call(s, sched, id, args).0.now <= s.now + 1 + |args| + 1 + 10 + 1
    ensures Set(Ticks(s.m, sched(s.now)).busy) ==>
              Call(s, sched, id, args) == (Shared(Ticks(s.m, sched(s.now)), s.now + 1), false)
  {
    TicksKeepHostState(s.m, sched(s.now));
    var t := Turn(s, sched);
    if !Set(t.m.busy) {
      ArgsWrittenClear(t, sched, args);
      var u := WriteArgs(t, sched, args);
      TicksKeepClear(u.m, sched(u.now));
      PollWritesNothing(WriteId(u, sched, id), sched, POLLS);
    }
  }

  // ---------- What a true return means ----------

  /** No request is being served and no completion waits to be acknowledged. */
  predicate Quiet(m: Micro) {
    !Set(m.busy) && m.task == Idle && !Set(m.done)
  }

  /** The three phases of a request issued to a quiet micro. */
  ghost predicate InService(m: Micro, job: Job, before: seq<Job>) {
    && m.args == job.args && m.ticket == job.ticket && Set(job.code)
    && (|| (m.busy == job.code && m.task == Idle && !Set(m.done) && m.completed == before)
        || (!Set(m.busy) && m.task == Working(job) && !Set(m.done) && m.completed == before)
        || (!Set(m.busy) && m.task == Idle && Set(m.done) && m.completed == before + [job]))
  }

  lemma FlagBits(b: byte)
    ensures Set(b | FLAG) && Set(FLAG | b) && !Set(b & 0x7f) && !Set(0)
  {
  }

  lemma {:induction false} ServiceAdvances(m: Micro, n: nat, job: Job, before: seq<Job>)
    requires InService(m, job, before)
    ensures InService(Ticks(m, n), job, before)
    ensures Set(m.done) ==> Ticks(m, n) == m
    decreases n
  {
    if n > 0 {
      FlagBits(m.busy);
      FlagBits(m.done);
      ServiceAdvances(Tick(m), n - 1, job, before);
    }
  }

  lemma {:induction false} QuietStays(m: Micro, n: nat)
    requires Quiet(m)
    ensures Ticks(m, n) == m
    decreases n
  {
    if n > 0 { QuietStays(m, n - 1); }
  }

  lemma {:induction false} QuietArgs(s: Shared, sched: Schedule, args: seq<byte>)
    requires Quiet(s.m) && |args| <= ARG_FILE
    ensures Quiet(WriteArgs(s, sched, args).m) && WriteArgs(s, sched, args).m.completed == s.m.completed
    decreases |args|
  {
    if args != [] {
      var n := |args| - 1;
      QuietArgs(s, sched, args[..n]);
      var t := WriteArgs(s, sched, args[..n]);
      QuietStays(t.m, sched(t.now));
    }
  }

  lemma {:induction false} PollCompletes(s: Shared, sched: Schedule, left: nat, job: Job, before: seq<Job>)
    requires InService(s.m, job, before)
    ensures var (t, ok) := Poll(s, sched, left);
            if ok then Quiet(t.m) && t.m.completed == before + [job] else InService(t.m, job, before)
    decreases left
  {
    if left > 0 {
      ServiceAdvances(s.m, sched(s.now), job, before);
      var t := Turn(s, sched);
      if Set(t.m.done) {
        ServiceAdvances(t.m, sched(t.now), job, before);
        FlagBits(0);
      } else {
        PollCompletes(t, sched, left - 1, job, before);
      }
    }
  }

  /** Called on a quiet micro, a true return means that this very request, with these arguments, has
      been completed and acknowledged, and that the micro is quiet again. */
  lemma TrueMeansCompleted(s: Shared, sched: Schedule, id: byte, args: seq<byte>)
    requires Quiet(s.m) && |args| < ARG_FILE
    ensures var (t, ok) := Call(s, sched, id, args);
            ok ==> && Quiet(t.m) && t.m.ticket == s.m.ticket + 1 && t.m.args[..|args|] == args
                   && t.m.completed == s.m.completed + [Job(s.m.ticket + 1, FLAG | id, t.m.args)]
  {
    QuietStays(s.m, sched(s.now));
    var t := Turn(s, sched);
    QuietArgs(t, sched, args);
    ArgsWrittenClear(t, sched, args);
    var u := WriteArgs(t, sched, args);
    QuietStays(u.m, sched(u.now));
    var w := WriteId(u, sched, id);
    FlagBits(id);
    PollWritesNothing(w, sched, POLLS);
    PollCompletes(w, sched, POLLS, Job(w.m.ticket, FLAG | id, w.m.args), s.m.completed);
  }

  // ---------- How long a call waits ----------

  /** The steps the micro takes in front of `n` accesses of the host, from access `from` on. */
  function Steps(sched: Schedule, from: nat, n: nat): nat
    decreases n
  {
    if n == 0 then 0 else sched(from) + Steps(sched, from + 1, n - 1)
  }

  /** The steps a request still takes: one to be picked up, one to be completed. */
  function Missing(m: Micro): nat {
    if Set(m.done) then 0 else if m.task.Working? then 1 else 2
  }

  lemma {:induction false} ServiceProceeds(m: Micro, n: nat, job: Job, before: seq<Job>)
    requires InService(m, job, before)
    ensures Missing(Ticks(m, n)) == if n < Missing(m) then Missing(m) - n else 0
    decreases n
  {
    if n > 0 {
      FlagBits(m.busy);
      FlagBits(m.done);
      ServiceAdvances(m, 1, job, before);
      assert Ticks(m, 1) == Ticks(Tick(m), 0) == Tick(m);
      ServiceProceeds(Tick(m), n - 1, job, before);
    }
  }

  lemma {:induction false} PollWaits(s: Shared, sched: Schedule, left: nat, job: Job, before: seq<Job>)
    requires InService(s.m, job, before) && Missing(s.m) > 0
    ensures var (t, ok) := Poll(s, sched, left);
            (ok <==> Steps(sched, s.now, left) >= Missing(s.m)) && (!ok ==> t.now == s.now + left)
    decreases left
  {
    if left > 0 {
      ServiceAdvances(s.m, sched(s.now), job, before);
      ServiceProceeds(s.m, sched(s.now), job, before);
      var t := Turn(s, sched);
      if !Set(t.m.done) {
        PollWaits(t, sched, left - 1, job, before);
      }
    }
  }

  /** A quiet micro is given ten polls: the call returns true if and only if the micro takes the two steps it
      needs between the write of the id and the tenth poll. A call that returns false has polled ten times. */
  lemma TrueExactlyInTime(s: Shared, sched: Schedule, id: byte, args: seq<byte>)
    requires Quiet(s.m) && |args| < ARG_FILE
    ensures var (t, ok) := Call(s, sched, id, args);
            && (ok <==> Steps(sched, s.now + 1 + |args| + 1, 10) >= 2)
            && (!ok ==> t.now == s.now + 1 + |args| + 1 + 10)
  {
    hide Poll, Steps, WriteArgs, Ticks;
    QuietStays(s.m, sched(s.now));
    var t := Turn(s, sched);
    QuietArgs(t, sched, args);
    ArgsWrittenClear(t, sched, args);
    var u := WriteArgs(t, sched, args);
    QuietStays(u.m, sched(u.now));
    var w := WriteId(u, sched, id);
    FlagBits(id);
    PollWaits(w, sched, POLLS, Job(w.m.ticket, FLAG | id, w.m.args), w.m.completed);
  }

  datatype AnyRequest = Request(id: byte, args: seq<byte>)

  type Request = r: AnyRequest | |r.args| < ARG_FILE witness Request(0, [])

  /** Calls made one after the other as long as they return true. */
  function CallAll(s: Shared, sched: Schedule, rs: seq<Request>): (Shared, bool)
    decreases |rs|
  {
    if rs == [] then (s, true)
    else
      var n := |rs| - 1;
      var (t, ok) := CallAll(s, sched, rs[..n]);
      if !ok then (t, false) else Call(t, sched, rs[n].id, rs[n].args)
  }

  predicate Serves(job: Job, r: Request) {
    job.code == FLAG | r.id && job.args[..|r.args|] == r.args
  }

  ghost predicate AllServed(jobs: seq<Job>, rs: seq<Request>) {
    |jobs| == |rs| && forall k | 0 <= k < |rs| :: Serves(jobs[k], rs[k])
  }

  /** If every call returned true, the micro served exactly the requests made, in order. */
  lemma {:induction false} AllTrueMeansAllCompleted(s: Shared, sched: Schedule, rs: seq<Request>)
    returns (served: seq<Job>)
    requires Quiet(s.m) && CallAll(s, sched, rs).1
    ensures Quiet(CallAll(s, sched, rs).0.m)
    ensures CallAll(s, sched, rs).0.m.completed == s.m.completed + served && AllServed(served, rs)
    decreases |rs|
  {
    if rs == [] {
      served := [];
    } else {
      var n := |rs| - 1;
      var init := AllTrueMeansAllCompleted(s, sched, rs[..n]);
      var t := CallAll(s, sched, rs[..n]).0;
      var last := CompletedJob(t, sched, rs[n]);
      served := init + [last];
      AllServedGrows(init, rs, last);
    }
  }

  lemma CompletedJob(s: Shared, sched: Schedule, r: Request) returns (job: Job)
    requires Quiet(s.m) && Call(s, sched, r.id, r.args).1
    ensures var t := Call(s, sched, r.id, r.args).0;
            Quiet(t.m) && t.m.completed == s.m.completed + [job] && Serves(job, r)
  {
    TrueMeansCompleted(s, sched, r.id, r.args);
    job := Job(s.m.ticket + 1, FLAG | r.id, Call(s, sched, r.id, r.args).0.m.args);
  }

  lemma AllServedGrows(init: seq<Job>, rs: seq<Request>, last: Job)
    requires rs != [] && AllServed(init, rs[..|rs| - 1]) && Serves(last, rs[|rs| - 1])
    ensures AllServed(init + [last], rs)
  {
    forall k | 0 <= k < |rs| ensures Serves((init + [last])[k], rs[k]) {
      if k < |init| { assert Serves(init[k], rs[..|rs| - 1][k]); }
    }
  }

  /** A true return can be trusted: the request it was returned for has been completed. */
  ghost predicate Trusted(m: Micro) {
    forall sched: Schedule, id: byte, args: seq<byte> | |args| < ARG_FILE ::
      var (t, ok) := Call(Shared(m, 0), sched, id, args);
      ok ==> exists job | job in t.m.completed :: job.ticket == m.ticket + 1
  }

  /** Everything the micro has or had in hand was requested earlier. */
  ghost predicate TicketsIssued(m: Micro) {
    (forall job | job in m.completed :: job.ticket <= m.ticket) && (m.task.Working? ==> m.task.job.ticket <= m.ticket)
  }

  lemma {:induction false} TicketsStayIssued(m: Micro, n: nat)
    requires TicketsIssued(m)
    ensures TicketsIssued(Ticks(m, n)) && Ticks(m, n).ticket == m.ticket
    decreases n
  {
    if n > 0 { TicketsStayIssued(Tick(m), n - 1); }
  }

  /** Until the call looks at busy, the micro may pick up a request that is already there. */
  function Catches(m: Micro): nat {
    if !Set(m.busy) then 0 else if m.task == Idle then 1 else 2
  }

  lemma PicksUp(m: Micro)
    requires Set(m.busy) && m.task == Idle
    ensures Ticks(m, 1) == Tick(m) && !Set(Tick(m).busy) && Tick(m).task.Working?
  {
    FlagBits(m.busy);
  }

  lemma FinishesFirst(m: Micro)
    requires Set(m.busy) && m.task.Working?
    ensures Ticks(m, 2) == Ticks(Tick(m), 1) && Set(Tick(m).busy) && Tick(m).task == Idle
  {
  }

  lemma CaughtUp(m: Micro)
    requires TicketsIssued(m) && !Quiet(m)
    ensures var t := Ticks(m, Catches(m));
            !Set(t.busy) && !Quiet(t) && TicketsIssued(t) && t.ticket == m.ticket
  {
    TicketsStayIssued(m, Catches(m));
    if Set(m.busy) {
      if m.task == Idle {
        PicksUp(m);
      } else {
        FinishesFirst(m);
        PicksUp(Tick(m));
      }
    }
  }

  /** A completion still to come, or not yet acknowledged, is taken for that of the next request. */
  lemma StaleCompletion(m: Micro)
    requires TicketsIssued(m) && !Quiet(m)
    ensures !Trusted(m)
  {
    var first := Catches(m);
    var sched: Schedule := k => if k == 0 then first else if k == 2 then 1 else 0;
    CaughtUp(m);
    var s1 := Turn(Shared(m, 0), sched);
    var s2 := WriteId(s1, sched, 0x1c);
    var s3 := Turn(s2, sched);
    var (t, ok) := Call(Shared(m, 0), sched, 0x1c, []);
    FlagBits(s1.m.done);
    assert Ticks(s2.m, 1) == Tick(s2.m);
    assert Set(s3.m.done);
    assert ok && t == Acknowledge(s3, sched);
    assert forall job | job in t.m.completed :: job.ticket <= m.ticket;
  }

  /** A true return of the next call can be trusted exactly when the micro is quiet ... */
  lemma TrustedExactly(m: Micro)
    requires TicketsIssued(m)
    ensures Trusted(m) <==> Quiet(m)
  {
    if Quiet(m) {
      forall sched: Schedule, id: byte, args: seq<byte> | |args| < ARG_FILE
        ensures var (t, ok) := Call(Shared(m, 0), sched, id, args);
                ok ==> exists job | job in t.m.completed :: job.ticket == m.ticket + 1
      {
        TrueMeansCompleted(Shared(m, 0), sched, id, args);
        var (t, ok) := Call(Shared(m, 0), sched, id, args);
        if ok { assert t.m.completed[|m.completed|] in t.m.completed; }
      }
    } else {
      StaleCompletion(m);
    }
  }

  /** ... and a call on a quiet micro shows by its return whether it left the micro quiet. */
  lemma ReturnTellsQuiet(s: Shared, sched: Schedule, id: byte, args: seq<byte>)
    requires Quiet(s.m) && |args| < ARG_FILE
    ensures Call(s, sched, id, args).1 <==> Quiet(Call(s, sched, id, args).0.m)
  {
    QuietStays(s.m, sched(s.now));
    var t := Turn(s, sched);
    QuietArgs(t, sched, args);
    var u := WriteArgs(t, sched, args);
    QuietStays(u.m, sched(u.now));
    var w := WriteId(u, sched, id);
    FlagBits(id);
    PollCompletes(w, sched, POLLS, Job(w.m.ticket, FLAG | id, w.m.args), s.m.completed);
  }

  lemma {:induction false} ArgsKeepTickets(s: Shared, sched: Schedule, args: seq<byte>)
    requires TicketsIssued(s.m) && |args| <= ARG_FILE
    ensures TicketsIssued(WriteArgs(s, sched, args).m)
    decreases |args|
  {
    if args != [] {
      var n := |args| - 1;
      ArgsKeepTickets(s, sched, args[..n]);
      var t := WriteArgs(s, sched, args[..n]);
      TicketsStayIssued(t.m, sched(t.now));
    }
  }

  lemma {:induction false} PollKeepsTickets(s: Shared, sched: Schedule, left: nat)
    requires TicketsIssued(s.m)
    ensures TicketsIssued(Poll(s, sched, left).0.m)
    decreases left
  {
    if left > 0 {
      TicketsStayIssued(s.m, sched(s.now));
      var t := Turn(s, sched);
      TicketsStayIssued(t.m, sched(t.now));
      PollKeepsTickets(t, sched, left - 1);
    }
  }

  lemma CallKeepsTickets(s: Shared, sched: Schedule, id: byte, args: seq<byte>)
    requires TicketsIssued(s.m) && |args| < ARG_FILE
    ensures TicketsIssued(Call(s, sched, id, args).0.m)
  {
    TicketsStayIssued(s.m, sched(s.now));
    var t := Turn(s, sched);
    ArgsKeepTickets(t, sched, args);
    var u := WriteArgs(t, sched, args);
    TicketsStayIssued(u.m, sched(u.now));
    PollKeepsTickets(WriteId(u, sched, id), sched, POLLS);
  }

  lemma {:induction false} ReturnsTellQuiet(s: Shared, sched: Schedule, rs: seq<Request>)
    requires Quiet(s.m) && TicketsIssued(s.m)
    ensures TicketsIssued(CallAll(s, sched, rs).0.m)
    ensures CallAll(s, sched, rs).1 <==> Quiet(CallAll(s, sched, rs).0.m)
    decreases |rs|
  {
    if rs != [] {
      var n := |rs| - 1;
      ReturnsTellQuiet(s, sched, rs[..n]);
      var (t, ok) := CallAll(s, sched, rs[..n]);
      if ok {
        ReturnTellsQuiet(t, sched, rs[n].id, rs[n].args);
        CallKeepsTickets(t, sched, rs[n].id, rs[n].args);
      }
    }
  }

  /** As long as the calls return true the micro can be trusted; a host that stops at the first false return
      knows that it cannot any more. */
  lemma TrustedWhileTrue(s: Shared, sched: Schedule, rs: seq<Request>)
    requires Quiet(s.m) && TicketsIssued(s.m)
    ensures Trusted(CallAll(s, sched, rs).0.m) <==> CallAll(s, sched, rs).1
  {
    ReturnsTellQuiet(s, sched, rs);
    TrustedExactly(CallAll(s, sched, rs).0.m);
  }

  // ---------- What the host can tell from its returns ----------

  /** Calls made one after the other whatever they return, and what they returned. */
  function RunAll(s: Shared, sched: Schedule, rs: seq<Request>): (Shared, seq<bool>)
    decreases |rs|
  {
    if rs == [] then (s, [])
    else
      var n := |rs| - 1;
      var (t, oks) := RunAll(s, sched, rs[..n]);
      var (u, ok) := Call(t, sched, rs[n].id, rs[n].args);
      (u, oks + [ok])
  }

  lemma OneMore(s: Shared, sched: Schedule, rs: seq<Request>)
    ensures rs == [] ==> RunAll(s, sched, rs) == (s, [])
    ensures rs != [] ==>
              var n := |rs| - 1;
              var (t, oks) := RunAll(s, sched, rs[..n]);
              var (u, ok) := Call(t, sched, rs[n].id, rs[n].args);
              RunAll(s, sched, rs) == (u, oks + [ok])
  {
  }

  predicate AllTrue(oks: seq<bool>) {
    forall k | 0 <= k < |oks| :: oks[k]
  }

  lemma AllTrueGrows(oks: seq<bool>, ok: bool)
    ensures AllTrue(oks + [ok]) <==> AllTrue(oks) && ok
  {
    if AllTrue(oks + [ok]) {
      assert (oks + [ok])[|oks|] == ok;
      forall k | 0 <= k < |oks| ensures oks[k] { assert (oks + [ok])[k] == oks[k]; }
    }
  }

  lemma {:induction false} RunKeepsTickets(s: Shared, sched: Schedule, rs: seq<Request>)
    requires TicketsIssued(s.m)
    ensures TicketsIssued(RunAll(s, sched, rs).0.m) && |RunAll(s, sched, rs).1| == |rs|
    ensures s.now <= RunAll(s, sched, rs).0.now
    decreases |rs|
  {
    if rs != [] {
      var n := |rs| - 1;
      RunKeepsTickets(s, sched, rs[..n]);
      var t := RunAll(s, sched, rs[..n]).0;
      CallKeepsTickets(t, sched, rs[n].id, rs[n].args);
      TimePasses(t, sched, rs[n]);
    }
  }

  lemma {:induction false} AllTrueRunQuiet(s: Shared, sched: Schedule, rs: seq<Request>)
    requires Quiet(s.m) && AllTrue(RunAll(s, sched, rs).1)
    ensures Quiet(RunAll(s, sched, rs).0.m)
    decreases |rs|
  {
    if rs != [] {
      var n := |rs| - 1;
      var (t, oks) := RunAll(s, sched, rs[..n]);
      AllTrueGrows(oks, Call(t, sched, rs[n].id, rs[n].args).1);
      AllTrueRunQuiet(s, sched, rs[..n]);
      ReturnTellsQuiet(t, sched, rs[n].id, rs[n].args);
    }
  }

  // A run depends on the schedule only as far as it has come.

  lemma {:induction false} ArgsAgree(s: Shared, f: Schedule, g: Schedule, args: seq<byte>)
    requires |args| <= ARG_FILE && forall k | s.now <= k < s.now + |args| :: f(k) == g(k)
    ensures WriteArgs(s, f, args) == WriteArgs(s, g, args) && WriteArgs(s, f, args).now == s.now + |args|
    decreases |args|
  {
    if args != [] { ArgsAgree(s, f, g, args[..|args| - 1]); }
  }

  lemma {:induction false} PollLasts(s: Shared, f: Schedule, left: nat)
    ensures Poll(s, f, left).0.now >= s.now + (if left == 0 then 0 else 1)
    decreases left
  {
    if left > 0 { PollLasts(Turn(s, f), f, left - 1); }
  }

  lemma {:induction false} PollAgrees(s: Shared, f: Schedule, g: Schedule, left: nat)
    requires forall k | s.now <= k < Poll(s, f, left).0.now :: f(k) == g(k)
    ensures Poll(s, f, left) == Poll(s, g, left)
    decreases left
  {
    if left > 0 {
      PollLasts(s, f, left);
      var t := Turn(s, f);
      assert t == Turn(s, g);
      if Set(t.m.done) {
        assert f(t.now) == g(t.now);
      } else {
        PollAgrees(t, f, g, left - 1);
      }
    }
  }

  lemma TimePasses(s: Shared, f: Schedule, r: Request)
    ensures Call(s, f, r.id, r.args).0.now > s.now
  {
    var t := Turn(s, f);
    if !Set(t.m.busy) {
      ArgsAgree(t, f, f, r.args);
      PollLasts(WriteId(WriteArgs(t, f, r.args), f, r.id), f, POLLS);
    }
  }

  lemma IdAgrees(s: Shared, f: Schedule, g: Schedule, id: byte)
    requires f(s.now) == g(s.now)
    ensures WriteId(s, f, id) == WriteId(s, g, id) && WriteId(s, f, id).now == s.now + 1
  {
  }

  lemma CallAgrees(s: Shared, f: Schedule, g: Schedule, r: Request)
    requires forall k | s.now <= k < Call(s, f, r.id, r.args).0.now :: f(k) == g(k)
    ensures Call(s, f, r.id, r.args) == Call(s, g, r.id, r.args)
  {
    hide WriteArgs, WriteId, Poll, Ticks, Set;
    TimePasses(s, f, r);
    var t := Turn(s, f);
    assert t == Turn(s, g);
    if !Set(t.m.busy) {
      ArgsAgree(t, f, f, r.args);
      var u := WriteArgs(t, f, r.args);
      IdAgrees(u, f, f, r.id);
      PollLasts(WriteId(u, f, r.id), f, POLLS);
      ArgsAgree(t, f, g, r.args);
      IdAgrees(u, f, g, r.id);
      PollAgrees(WriteId(u, f, r.id), f, g, POLLS);
    }
  }

  lemma {:induction false} RunAgrees(s: Shared, f: Schedule, g: Schedule, rs: seq<Request>)
    requires forall k | s.now <= k < RunAll(s, f, rs).0.now :: f(k) == g(k)
    ensures RunAll(s, f, rs) == RunAll(s, g, rs) && s.now <= RunAll(s, f, rs).0.now
    decreases |rs|
  {
    if rs != [] {
      var n := |rs| - 1;
      var t := RunAll(s, f, rs[..n]).0;
      TimePasses(t, f, rs[n]);
      RunAgrees(s, f, g, rs[..n]);
      CallAgrees(t, f, g, rs[n]);
    }
  }

  // Every list of returns can be had.

  /** A request waits, and the micro does nothing. */
  predicate Stuck(m: Micro) {
    Set(m.busy) && m.task == Idle && !Set(m.done)
  }

  /** While the micro stands still the arguments change nothing else. */
  lemma {:induction false} StillArgs(s: Shared, f: Schedule, args: seq<byte>)
    requires |args| <= ARG_FILE && forall k | s.now <= k < s.now + |args| :: f(k) == 0
    ensures var t := WriteArgs(s, f, args);
            t.m.busy == s.m.busy && t.m.task == s.m.task && t.m.done == s.m.done && t.now == s.now + |args|
    decreases |args|
  {
    if args != [] { StillArgs(s, f, args[..|args| - 1]); }
  }

  lemma {:induction false} StillPoll(s: Shared, f: Schedule, left: nat)
    requires !Set(s.m.done) && forall k | s.now <= k < s.now + left :: f(k) == 0
    ensures Poll(s, f, left) == (Shared(s.m, s.now + left), false)
    decreases left
  {
    if left > 0 { StillPoll(Turn(s, f), f, left - 1); }
  }

  /** The call up to its first poll, if the micro stands still in between. */
  lemma UpToPoll(s: Shared, f: Schedule, r: Request)
    requires !Set(Turn(s, f).m.busy) && forall k | s.now < k <= s.now + |r.args| + 1 :: f(k) == 0
    ensures var u := WriteId(WriteArgs(Turn(s, f), f, r.args), f, r.id);
            && Call(s, f, r.id, r.args) == Poll(u, f, POLLS) && u.now == s.now + |r.args| + 2
            && Set(u.m.busy) && u.m.task == Turn(s, f).m.task && u.m.done == Turn(s, f).m.done
  {
    var t := Turn(s, f);
    StillArgs(t, f, r.args);
    assert f(WriteArgs(t, f, r.args).now) == 0;
    FlagBits(r.id);
  }

  lemma TwoTicks(m: Micro)
    requires Stuck(m)
    ensures Ticks(m, 1) == Tick(m) && !Set(Tick(m).busy) && Tick(m).task.Working? && !Set(Tick(m).done)
    ensures Ticks(m, 2) == Tick(Tick(m)) && !Set(Tick(Tick(m)).busy) && Tick(Tick(m)).task == Idle
    ensures Set(Tick(Tick(m)).done)
  {
    FlagBits(m.busy);
    FlagBits(m.done);
    assert Ticks(Tick(m), 1) == Tick(Tick(m));
  }

  /** A quiet micro that stands still is stuck afterwards, and the call returns false. */
  lemma QuietSticks(s: Shared, f: Schedule, r: Request)
    requires Quiet(s.m) && forall k | s.now <= k :: f(k) == 0
    ensures !Call(s, f, r.id, r.args).1 && Stuck(Call(s, f, r.id, r.args).0.m)
  {
    UpToPoll(s, f, r);
    StillPoll(WriteId(WriteArgs(Turn(s, f), f, r.args), f, r.id), f, POLLS);
  }

  /** The schedule of a call from `now` on, with `first` steps before it looks at busy, `second` before its
      first poll and `third` before it acknowledges. */
  function Paced(now: nat, r: Request, first: nat, second: nat, third: nat): Schedule {
    (k: nat) =>
      if k == now then first else if k == now + |r.args| + 2 then second
      else if k == now + |r.args| + 3 then third else 0
  }

  lemma QuietAnswers(s: Shared, f: Schedule, r: Request)
    requires Quiet(s.m) && forall k | s.now <= k :: f(k) == Paced(s.now, r, 0, 2, 0)(k)
    ensures Call(s, f, r.id, r.args).1
  {
    assert f(s.now) == 0;
    UpToPoll(s, f, r);
    var u := WriteId(WriteArgs(Turn(s, f), f, r.args), f, r.id);
    assert f(u.now) == 2;
    TwoTicks(u.m);
  }

  lemma StuckRefuses(s: Shared, f: Schedule, r: Request)
    requires Stuck(s.m) && f(s.now) == 0
    ensures Call(s, f, r.id, r.args) == (Shared(s.m, s.now + 1), false)
  {
  }

  /** A stuck micro that wakes up for the old request in time answers the new one with it, and is stuck
      again ... */
  lemma StuckAnswers(s: Shared, f: Schedule, r: Request)
    requires Stuck(s.m) && forall k | s.now <= k :: f(k) == Paced(s.now, r, 1, 1, 0)(k)
    ensures Call(s, f, r.id, r.args).1 && Stuck(Call(s, f, r.id, r.args).0.m)
  {
    assert f(s.now) == 1;
    TwoTicks(s.m);
    UpToPoll(s, f, r);
    var u := WriteId(WriteArgs(Turn(s, f), f, r.args), f, r.id);
    assert f(u.now) == 1 && f(u.now + 1) == 0;
    assert Ticks(u.m, 1) == Tick(u.m);
    FlagBits(u.m.done);
  }

  /** ... or it is quiet, if it serves the new one before the acknowledgement. */
  lemma StuckRecovers(s: Shared, f: Schedule, r: Request)
    requires Stuck(s.m) && forall k | s.now <= k :: f(k) == Paced(s.now, r, 2, 0, 2)(k)
    ensures Call(s, f, r.id, r.args).1 && Quiet(Call(s, f, r.id, r.args).0.m)
  {
    assert f(s.now) == 2;
    TwoTicks(s.m);
    UpToPoll(s, f, r);
    var u := WriteId(WriteArgs(Turn(s, f), f, r.args), f, r.id);
    assert f(u.now) == 0 && f(u.now + 1) == 2;
    var t := Turn(u, f);
    assert t.m == u.m;
    ServedTwice(t.m);
  }

  lemma ServedTwice(m: Micro)
    requires Set(m.busy) && m.task == Idle
    ensures !Set(Ticks(m, 2).busy) && Ticks(m, 2).task == Idle
  {
    FlagBits(m.busy);
    assert Ticks(Tick(m), 1) == Tick(Tick(m));
  }

  /** How the micro is paced for a call to return `ok`. */
  function PaceFor(m: Micro, now: nat, r: Request, ok: bool): Schedule {
    if !ok then Paced(now, r, 0, 0, 0) else if Stuck(m) then Paced(now, r, 1, 1, 0) else Paced(now, r, 0, 2, 0)
  }

  lemma Answers(s: Shared, f: Schedule, r: Request, ok: bool)
    requires (Quiet(s.m) || Stuck(s.m)) && forall k | s.now <= k :: f(k) == PaceFor(s.m, s.now, r, ok)(k)
    ensures var (t, returned) := Call(s, f, r.id, r.args);
            returned == ok && (if Quiet(s.m) && ok then Quiet(t.m) else Stuck(t.m))
  {
    if Quiet(s.m) {
      if ok {
        QuietAnswers(s, f, r);
        ReturnTellsQuiet(s, f, r.id, r.args);
      } else {
        QuietSticks(s, f, r);
      }
    } else if ok {
      StuckAnswers(s, f, r);
    } else {
      StuckRefuses(s, f, r);
    }
  }

  lemma NotStuckQuiet(m: Micro)
    ensures !(Quiet(m) && Stuck(m))
  {
  }

  function Spliced(f: Schedule, at: nat, g: Schedule): Schedule {
    (k: nat) => if k < at then f(k) else g(k)
  }

  /** What follows a run can be paced without changing the run. */
  lemma SplicedRun(s: Shared, f: Schedule, g: Schedule, rs: seq<Request>)
    ensures var t := RunAll(s, f, rs).0;
            && RunAll(s, Spliced(f, t.now, g), rs) == RunAll(s, f, rs)
            && forall k | t.now <= k :: Spliced(f, t.now, g)(k) == g(k)
  {
    RunAgrees(s, f, Spliced(f, RunAll(s, f, rs).0.now, g), rs);
  }

  /** From a quiet micro every list of returns is that of some run; unless all are true, of one that leaves the
      micro stuck. */
  lemma {:induction false} EveryListReturned(m: Micro, rs: seq<Request>, oks: seq<bool>) returns (sched: Schedule)
    requires Quiet(m) && |rs| == |oks|
    ensures Returned(m, sched, rs, oks)
    decreases |rs|
  {
    if rs == [] {
      sched := (k: nat) => 0;
    } else {
      var f := EveryListReturned(m, rs[..|rs| - 1], oks[..|rs| - 1]);
      sched := OneMoreReturned(m, f, rs, oks);
    }
  }

  ghost predicate Returned(m: Micro, sched: Schedule, rs: seq<Request>, oks: seq<bool>) {
    var (t, returned) := RunAll(Shared(m, 0), sched, rs);
    returned == oks && (if AllTrue(oks) then Quiet(t.m) else Stuck(t.m))
  }

  lemma OneMoreReturned(m: Micro, f: Schedule, rs: seq<Request>, oks: seq<bool>) returns (sched: Schedule)
    requires rs != [] && |rs| == |oks| && Returned(m, f, rs[..|rs| - 1], oks[..|rs| - 1])
    ensures Returned(m, sched, rs, oks)
  {
    hide RunAll, Call, Quiet, Stuck, PaceFor, AllTrue, Spliced;
    var n := |rs| - 1;
    var s := Shared(m, 0);
    var t := RunAll(s, f, rs[..n]).0;
    var g := PaceFor(t.m, t.now, rs[n], oks[n]);
    sched := Spliced(f, t.now, g);
    SplicedRun(s, f, g, rs[..n]);
    Answers(t, sched, rs[n], oks[n]);
    OneMore(s, sched, rs);
    NotStuckQuiet(t.m);
    assert oks == oks[..n] + [oks[n]];
    AllTrueGrows(oks[..n], oks[n]);
  }

  /** What the host can go by. Of all runs from a quiet micro that return this list, the next true return can
      be trusted in every one exactly when every return was true. */
  lemma TrustedByReturns(m: Micro, rs: seq<Request>, oks: seq<bool>)
    requires Quiet(m) && TicketsIssued(m) && |rs| == |oks|
    ensures (forall sched: Schedule | RunAll(Shared(m, 0), sched, rs).1 == oks ::
               Trusted(RunAll(Shared(m, 0), sched, rs).0.m))
            <==> AllTrue(oks)
  {
    var s := Shared(m, 0);
    if AllTrue(oks) {
      forall sched: Schedule | RunAll(s, sched, rs).1 == oks ensures Trusted(RunAll(s, sched, rs).0.m) {
        AllTrueRunQuiet(s, sched, rs);
        RunKeepsTickets(s, sched, rs);
        TrustedExactly(RunAll(s, sched, rs).0.m);
      }
    } else {
      var sched := EveryListReturned(m, rs, oks);
      RunKeepsTickets(s, sched, rs);
      TrustedExactly(RunAll(s, sched, rs).0.m);
    }
  }

  lemma TwoCalls(s: Shared, sched: Schedule, r1: Request, r2: Request)
    ensures var (t, ok1) := Call(s, sched, r1.id, r1.args);
            var (u, ok2) := Call(t, sched, r2.id, r2.args);
            RunAll(s, sched, [r1, r2]) == (u, [ok1, ok2])
  {
    hide Call, RunAll;
    assert [r1, r2][..1] == [r1] && [r1][..0] == [];
    OneMore(s, sched, []);
    OneMore(s, sched, [r1]);
    OneMore(s, sched, [r1, r2]);
    var (t, ok1) := Call(s, sched, r1.id, r1.args);
    var (u, ok2) := Call(t, sched, r2.id, r2.args);
    assert [ok1] == [] + [ok1] && [ok1, ok2] == [ok1] + [ok2];
    assert RunAll(s, sched, [r1]) == (t, [ok1]);
  }

  /** A false return does not tell the opposite: here the second call takes the completion of the first, and the
      micro can be trusted all the same. */
  lemma RecoversUnseen(m: Micro, r1: Request, r2: Request) returns (sched: Schedule)
    requires Quiet(m) && TicketsIssued(m)
    ensures RunAll(Shared(m, 0), sched, [r1, r2]).1 == [false, true]
    ensures Trusted(RunAll(Shared(m, 0), sched, [r1, r2]).0.m)
  {
    hide Call, Quiet, Stuck, Paced;
    var s := Shared(m, 0);
    var still: Schedule := (k: nat) => 0;
    QuietSticks(s, still, r1);
    var t := Call(s, still, r1.id, r1.args).0;
    sched := Spliced(still, t.now, Paced(t.now, r2, 2, 0, 2));
    CallAgrees(s, still, sched, r1);
    StuckRecovers(t, sched, r2);
    TwoCalls(s, sched, r1, r2);
    RunKeepsTickets(s, sched, [r1, r2]);
    TrustedExactly(RunAll(s, sched, [r1, r2]).0.m);
  }

  // ---------- The host ----------

  const BUSY_REG: nat := 0xf09f
  const DONE_REG: nat := 0xf09c
  const ARGS_REG: nat := 0xf0a0

  class Host {
    var s: Shared
    const sched: Schedule

    constructor (m: Micro, sched: Schedule)
      ensures s == Shared(m, 0) && this.sched == sched
    {
      s := Shared(m, 0);
      this.sched := sched;
    }

    /** tvw_uc_reg_has_bits_set, on the two flag registers. */
    method HasBitsSet(reg: nat, mask: byte, cmp: byte) returns (r: bool)
      requires reg == 0xf09f || reg == 0xf09c
      modifies this
      ensures s == Turn(old(s), sched)
      ensures r == ((if reg == 0xf09f then s.m.busy else s.m.done) & mask == cmp)
    {
      s := Turn(s, sched);
      var val := if reg == BUSY_REG then s.m.busy else s.m.done;
      r := val & mask == cmp;
    }

    /** tvw_uc_write_reg. */
    method WriteReg(reg: nat, val: byte) returns (ok: bool)
      requires (reg == 0xf09f && Set(val)) || (reg == 0xf09c && val == 0) || 0xf0a0 <= reg < 0xf0a0 + ARG_FILE
      modifies this
      ensures ok
      ensures reg == 0xf09f ==> s == WriteId(old(s), sched, val)
      ensures reg == 0xf09c ==> s == Acknowledge(old(s), sched)
      ensures reg >= 0xf0a0 ==> s == WriteArg(old(s), sched, reg - 0xf0a0, val)
    {
      ok := true;
      if reg == BUSY_REG {
        assert FLAG | val == val;
        s := WriteId(s, sched, val);
      } else if reg == DONE_REG {
        s := Acknowledge(s, sched);
      } else {
        s := WriteArg(s, sched, reg - ARGS_REG, val);
      }
    }

    /** The arguments, one register each. */
    method SendArgs(args: seq<byte>)
      requires |args| < ARG_FILE
      modifies this
      ensures s == WriteArgs(old(s), sched, args)
    {
      ghost var s1 := s;
      var i := 0;
      while i < |args|
        invariant 0 <= i <= |args| && s == WriteArgs(s1, sched, args[..i])
      {
        assert args[..i + 1][..i] == args[..i];
        var _ := WriteReg(ARGS_REG + i, args[i]);
        i := i + 1;
      }
      assert args[..i] == args;
    }

    /** The poll for completion, with its acknowledgement. */
    method AwaitDone() returns (completed: bool)
      modifies this
      ensures (s, completed) == Poll(old(s), sched, POLLS)
    {
      completed := false;
      ghost var s2 := s;
      var i := 0;
      while i < POLLS
        invariant 0 <= i <= POLLS && Poll(s2, sched, POLLS) == Poll(s, sched, POLLS - i)
      {
        var done := HasBitsSet(DONE_REG, 0x80, 0x80);
        if done {
          completed := WriteReg(DONE_REG, 0x00);
          return;
        }
        i := i + 1;
      }
    }

    /** tvw_uc_service_call. */
    method ServiceCall(serviceId: byte, args: seq<byte>) returns (completed: bool)
      requires |args| < ARG_FILE
      modifies this
      ensures (s, completed) == Call(old(s), sched, serviceId, args)
    {
      completed := false;
      var clear := HasBitsSet(BUSY_REG, 0x80, 0);
      if !clear {
        return false;
      }
      SendArgs(args);
      ghost var s1 := s;
      var _ := WriteReg(BUSY_REG, 0x80 | serviceId);
      assert s == WriteId(s1, sched, serviceId) by {
        assert FLAG | (0x80 | serviceId) == FLAG | serviceId;
      }
      completed := AwaitDone();
    }
  }
}
