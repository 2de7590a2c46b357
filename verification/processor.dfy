/** The rendering thread (`RenderingProcessor.run`): it takes jobs from a
    FIFO queue one at a time, numbers them, runs each to the end and
    forwards the job's callbacks; when a job leaves the queue empty it
    clears the processing flag and sends the end notice. One `Poll` is one
    pass of the thread's loop; an `Enqueue` is another thread putting a
    job on the queue. */
module Processor {
  import opened Wrappers
  import Pipeline

  /** What the thread passes on to the plugin: a job's callback, or the
      end of a batch. */
  datatype Notice = Forward(callback: Pipeline.Callback) | RenderEnd {
    predicate IsTerminal() {
      Forward? && (callback.RenderSuccess? || callback.RenderFailure?)
    }
  }

  /** `queue` is the task queue; `jobCount` the thread's job counter;
      `processing` the flag behind `is_processing`; `alive` is false once
      an exception has ended the thread; `dispatched` the jobs handed to
      the render job, as numbered; `notices` everything passed on. */
  datatype State = State(
    queue: seq<Pipeline.JobInfo>,
    jobCount: nat,
    processing: bool,
    alive: bool,
    dispatched: seq<Pipeline.JobInfo>,
    notices: seq<Notice>)

  datatype Input = Enqueue(job: Pipeline.JobInfo) | Poll(world: Pipeline.World)

  const Init := State([], 0, false, true, [], [])

  /** The callbacks among a job's events, in order. */
  function Forwarded(es: seq<Pipeline.Event>): (ns: seq<Notice>)
    ensures |ns| <= |es|
    ensures RenderEnd !in ns
  {
    if es == [] then []
    else
      var last := es[|es| - 1];
      Forwarded(es[..|es| - 1]) + (if last.Notified? then [Forward(last.callback)] else [])
  }

  function TerminalCount(ns: seq<Notice>): nat {
    if ns == [] then 0
    else TerminalCount(ns[..|ns| - 1]) + (if ns[|ns| - 1].IsTerminal() then 1 else 0)
  }

  lemma {:induction false} TerminalCountAppend(a: seq<Notice>, b: seq<Notice>)
    ensures TerminalCount(a + b) == TerminalCount(a) + TerminalCount(b)
    decreases |b|
  {
    if b != [] {
      assert (a + b)[..|a + b| - 1] == a + b[..|b| - 1];
      assert (a + b)[|a + b| - 1] == b[|b| - 1];
      TerminalCountAppend(a, b[..|b| - 1]);
    } else {
      assert a + b == a;
    }
  }

  /** Forwarding keeps exactly the terminal callbacks of the job. */
  lemma {:induction false} ForwardedNoTerminal(es: seq<Pipeline.Event>)
    requires Pipeline.NoTerminal(es)
    ensures TerminalCount(Forwarded(es)) == 0
    decreases |es|
  {
    if es != [] {
      var init := es[..|es| - 1];
      assert Pipeline.NoTerminal(init) by {
        forall i | 0 <= i < |init| ensures !init[i].IsTerminal() {
          assert init[i] == es[i];
        }
      }
      ForwardedNoTerminal(init);
      var tail := if es[|es| - 1].Notified? then [Forward(es[|es| - 1].callback)] else [];
      assert !es[|es| - 1].IsTerminal();
      TerminalCountAppend(Forwarded(init), tail);
      assert tail == [] || TerminalCount(tail) == TerminalCount([]) + 0 by {
        if tail != [] { assert tail[..0] == []; }
      }
    }
  }

  /** A job that ends with one terminal callback passes on exactly one. */
  lemma ForwardedOneTerminal(es: seq<Pipeline.Event>)
    requires Pipeline.OneTerminalLast(es)
    ensures TerminalCount(Forwarded(es)) == 1
  {
    var init := es[..|es| - 1];
    ForwardedNoTerminal(init);
    var last := es[|es| - 1];
    assert Forwarded(es) == Forwarded(init) + [Forward(last.callback)];
    TerminalCountAppend(Forwarded(init), [Forward(last.callback)]);
    assert [Forward(last.callback)][..0] == [];
  }

  /** The job as the thread hands it over: numbered from 1, and told how
      many jobs are still queued behind it. */
  function Stamp(job: Pipeline.JobInfo, number: int, remaining: int): Pipeline.JobInfo {
    job.(jobNumber := number, jobsRemaining := remaining)
  }

  /** How a job turns out in a given world. */
  type Renderer = (Pipeline.JobInfo, Pipeline.World) -> Pipeline.Run

  /** The render job the thread builds for each job, with the processor's
      services and host (`guarded` as in `Pipeline.RenderWith`). */
  function JobRunner(svc: Pipeline.Services, host: Pipeline.Host, guarded: bool): Renderer {
    (job, world) => Pipeline.RenderWith(Pipeline.Env(job, svc, host, world), guarded)
  }

  /** Takes the head job off the queue and numbers it: the job's number
      is the new job count and its remaining count is the size of the
      queue left behind it. */
  function Take(s: State): (r: (State, Pipeline.JobInfo))
    requires s.queue != []
    ensures r.0 == s.(queue := r.0.queue, jobCount := r.0.jobCount, processing := true, dispatched := r.0.dispatched)
    ensures s.queue == [s.queue[0]] + r.0.queue
    ensures r.0.dispatched == s.dispatched + [r.1]
    ensures r.1.jobNumber == r.0.jobCount == s.jobCount + 1
    ensures r.1.jobsRemaining == |r.0.queue|
    ensures r.1 == s.queue[0].(jobNumber := r.1.jobNumber, jobsRemaining := r.1.jobsRemaining)
  {
    var job := Stamp(s.queue[0], s.jobCount + 1, |s.queue| - 1);
    (s.(queue := s.queue[1..], jobCount := s.jobCount + 1, processing := true, dispatched := s.dispatched + [job]), job)
  }

  /** After the job: its callbacks are passed on; an exception out of the
      job ends the thread with the flag still set; a job that leaves the
      queue empty clears the flag and sends the end notice. */
  function Settle(t: State, run: Pipeline.Run): (r: State)
    ensures r.queue == t.queue && r.jobCount == t.jobCount && r.dispatched == t.dispatched
    ensures r.alive == (t.alive && run.escaped.None?)
    ensures r.processing <==> (t.processing && (run.escaped.Some? || t.queue != []))
    ensures r.notices == t.notices + Forwarded(run.events) + (if run.escaped.None? && t.queue == [] then [RenderEnd] else [])
  {
    var told := t.(notices := t.notices + Forwarded(run.events));
    if run.escaped.Some? then told.(alive := false)
    else if t.queue == [] then told.(processing := false, notices := told.notices + [RenderEnd])
    else told
  }

  /** One pass of the loop. A dead thread does nothing. On an empty queue
      the `get` times out and the flag is cleared. Otherwise the head job is
      taken, numbered and rendered, and the outcome settled. */
  function Step(s: State, world: Pipeline.World, render: Renderer): (r: State)
    ensures !s.alive ==> r == s
    ensures s.alive && s.queue == [] ==> r == s.(processing := false)
    ensures s.alive && s.queue != [] ==>
      var job := Stamp(s.queue[0], s.jobCount + 1, |s.queue| - 1);
      var run := render(job, world);
      && r.queue == s.queue[1..] && r.jobCount == s.jobCount + 1
      && r.dispatched == s.dispatched + [job]
      && r.alive == run.escaped.None?
      && (r.processing <==> run.escaped.Some? || |s.queue| > 1)
      && r.notices == s.notices + Forwarded(run.events)
           + (if run.escaped.None? && |s.queue| == 1 then [RenderEnd] else [])
  {
    if !s.alive then s
    else if s.queue == [] then s.(processing := false)
    else
      var (taken, job) := Take(s);
      Settle(taken, render(job, world))
  }

  function Apply(s: State, input: Input, render: Renderer): (r: State)
    ensures input.Enqueue? ==> r == s.(queue := s.queue + [input.job])
  {
    match input
    case Enqueue(job) => s.(queue := s.queue + [job])
    case Poll(world) => Step(s, world, render)
  }

  /** The state after a sequence of inputs from the initial state. */
  function Drive(inputs: seq<Input>, render: Renderer): State {
    if inputs == [] then Init
    else Apply(Drive(inputs[..|inputs| - 1], render), inputs[|inputs| - 1], render)
  }

  /** The jobs put on the queue, in order. */
  function Enqueued(inputs: seq<Input>): seq<Pipeline.JobInfo> {
    if inputs == [] then []
    else
      var last := inputs[|inputs| - 1];
      Enqueued(inputs[..|inputs| - 1]) + (if last.Enqueue? then [last.job] else [])
  }

  /** The queue is first-in first-out: the jobs dispatched so far and the
      jobs still queued are, in order, the jobs enqueued; the i-th job
      dispatched is the i-th enqueued, numbered i + 1. */
  predicate Fifo(s: State, enqueued: seq<Pipeline.JobInfo>) {
    && |s.dispatched| + |s.queue| == |enqueued|
    && s.queue == enqueued[|s.dispatched|..]
    && s.jobCount == |s.dispatched|
    && forall i :: 0 <= i < |s.dispatched| ==>
         s.dispatched[i] == Stamp(enqueued[i], i + 1, s.dispatched[i].jobsRemaining)
  }

  lemma TakeKeepsFifo(s: State, enqueued: seq<Pipeline.JobInfo>)
    requires Fifo(s, enqueued) && s.queue != []
    ensures Fifo(Take(s).0, enqueued)
  {
    var r := Take(s).0;
    var n := |s.dispatched|;
    assert enqueued[n] == s.queue[0];
    assert r.queue == enqueued[n + 1..];
    forall i | 0 <= i < |r.dispatched|
      ensures r.dispatched[i] == Stamp(enqueued[i], i + 1, r.dispatched[i].jobsRemaining)
    {
      if i < n { assert r.dispatched[i] == s.dispatched[i]; }
    }
  }

  lemma StepKeepsFifo(s: State, enqueued: seq<Pipeline.JobInfo>, world: Pipeline.World,
                      render: Renderer)
    requires Fifo(s, enqueued)
    ensures Fifo(Step(s, world, render), enqueued)
  {
    if s.alive && s.queue != [] {
      TakeKeepsFifo(s, enqueued);
      var t := Take(s).0;
      var r := Step(s, world, render);
      assert r.queue == t.queue && r.dispatched == t.dispatched && r.jobCount == t.jobCount;
    }
  }

  lemma {:induction false} DriveIsFifo(inputs: seq<Input>, render: Renderer)
    ensures Fifo(Drive(inputs, render), Enqueued(inputs))
  {
    if inputs != [] {
      var init := inputs[..|inputs| - 1];
      var last := inputs[|inputs| - 1];
      DriveIsFifo(init, render);
      var s := Drive(init, render);
      match last
      case Enqueue(job) =>
        var e := Enqueued(init);
        assert Enqueued(inputs) == e + [job];
        assert (e + [job])[|s.dispatched|..] == s.queue + [job];
        forall i | 0 <= i < |s.dispatched| ensures (e + [job])[i] == e[i] { }
      case Poll(world) =>
        assert Enqueued(inputs) == Enqueued(init);
        StepKeepsFifo(s, Enqueued(init), world, render);
    }
  }

  /** A renderer whose jobs never raise and each pass on exactly one
      terminal callback. */
  ghost predicate ReportsOnce(render: Renderer) {
    forall job, world :: render(job, world).escaped.None? && TerminalCount(Forwarded(render(job, world).events)) == 1
  }

  /** The guarded render job is such a renderer. */
  lemma GuardedRunnerReportsOnce(svc: Pipeline.Services, host: Pipeline.Host)
    ensures ReportsOnce(JobRunner(svc, host, true))
  {
    forall job, world
      ensures JobRunner(svc, host, true)(job, world).escaped.None?
      ensures TerminalCount(Forwarded(JobRunner(svc, host, true)(job, world).events)) == 1
    {
      var env := Pipeline.Env(job, svc, host, world);
      Pipeline.RenderFiresExactlyOneTerminalCallback(env);
      assert JobRunner(svc, host, true)(job, world) == Pipeline.Render(env);
      ForwardedOneTerminal(Pipeline.Render(env).events);
    }
  }

  lemma SettleCountsTerminals(t: State, run: Pipeline.Run)
    requires run.escaped.None?
    ensures TerminalCount(Settle(t, run).notices) == TerminalCount(t.notices) + TerminalCount(Forwarded(run.events))
    ensures Settle(t, run).alive == t.alive
  {
    var end: seq<Notice> := if t.queue == [] then [RenderEnd] else [];
    TerminalCountAppend(t.notices, Forwarded(run.events));
    TerminalCountAppend(t.notices + Forwarded(run.events), end);
    assert TerminalCount(end) == 0 by {
      if end != [] { assert end[..0] == []; }
    }
  }

  /** When no job raises, the thread never dies, and every job dispatched
      passes on exactly one terminal callback. */
  lemma {:induction false} ThreadReportsEveryJob(inputs: seq<Input>, render: Renderer)
    requires ReportsOnce(render)
    ensures var s := Drive(inputs, render);
      s.alive && TerminalCount(s.notices) == |s.dispatched|
  {
    if inputs != [] {
      var init := inputs[..|inputs| - 1];
      ThreadReportsEveryJob(init, render);
      var s := Drive(init, render);
      match inputs[|inputs| - 1]
      case Enqueue(_) =>
      case Poll(world) =>
        if s.queue != [] {
          var (t, job) := Take(s);
          SettleCountsTerminals(t, render(job, world));
        }
    }
  }

  /** With the guarded clean-up, the rendering thread never dies and
      reports every job it takes exactly once. */
  lemma GuardedThreadReportsEveryJob(inputs: seq<Input>, svc: Pipeline.Services, host: Pipeline.Host)
    ensures var s := Drive(inputs, JobRunner(svc, host, true));
      s.alive && TerminalCount(s.notices) == |s.dispatched|
  {
    GuardedRunnerReportsOnce(svc, host);
    ThreadReportsEveryJob(inputs, JobRunner(svc, host, true));
  }

  /** Once a job's exception has ended the thread, nothing changes any
      more but the queue: no job is dispatched or reported, no end notice
      is sent, and `is_processing` keeps answering what it answered when
      the thread died. */
  lemma {:induction false} DeadThreadStaysStuck(
    inputs: seq<Input>, k: nat, render: Renderer)
    requires k <= |inputs| && !Drive(inputs[..k], render).alive
    ensures var dead, s := Drive(inputs[..k], render), Drive(inputs, render);
      && !s.alive && s.processing == dead.processing
      && s.dispatched == dead.dispatched && s.notices == dead.notices && s.jobCount == dead.jobCount
    decreases |inputs|
  {
    if k < |inputs| {
      var init := inputs[..|inputs| - 1];
      assert init[..k] == inputs[..k];
      DeadThreadStaysStuck(init, k, render);
    } else {
      assert inputs[..k] == inputs;
    }
  }

  /** A job that raises out of the render job kills the thread: it is
      dispatched, passes on no terminal callback and no end notice, and
      `is_processing` stays true. */
  lemma EscapeKillsThread(s: State, world: Pipeline.World, render: Renderer)
    requires s.alive && s.queue != []
    requires render(Take(s).1, world).escaped.Some? && Pipeline.NoTerminal(render(Take(s).1, world).events)
    ensures var r := Step(s, world, render);
      && !r.alive && r.processing
      && RenderEnd !in r.notices[|s.notices|..]
      && TerminalCount(r.notices) == TerminalCount(s.notices)
      && r.dispatched == s.dispatched + [Take(s).1]
  {
    var (t, job) := Take(s);
    var run := render(job, world);
    ForwardedNoTerminal(run.events);
    TerminalCountAppend(s.notices, Forwarded(run.events));
    var r := Settle(t, run);
    assert r.notices == s.notices + Forwarded(run.events);
    assert r.notices[|s.notices|..] == Forwarded(run.events);
  }

  /** As the source is written, a job whose sync fails with both clean-ups
      on raises out of the render job, so the thread takes it, reports
      nothing and dies with `is_processing` still true; by
      `DeadThreadStaysStuck` every later poll leaves it so. */
  lemma AsWrittenSyncFailureKillsThread(s: State, world: Pipeline.World, svc: Pipeline.Services, host: Pipeline.Host)
    requires s.alive && s.queue != []
    requires var rendering := Take(s).1.rendering;
      rendering.cleanupAfterRenderComplete && rendering.cleanupAfterRenderFail && rendering.syncWithTimelapse
      && Pipeline.BeforeSync(Pipeline.Env(Take(s).1, svc, host, world)).Next? && world.syncError.Some?
    ensures var r := Step(s, world, JobRunner(svc, host, false));
      && !r.alive && r.processing
      && RenderEnd !in r.notices[|s.notices|..]
      && TerminalCount(r.notices) == TerminalCount(s.notices)
  {
    var env := Pipeline.Env(Take(s).1, svc, host, world);
    Pipeline.AsWrittenSyncFailureEscapes(env);
    assert JobRunner(svc, host, false)(Take(s).1, world) == Pipeline.RenderAsWritten(env);
    EscapeKillsThread(s, world, JobRunner(svc, host, false));
  }

  function Enqueues(jobs: seq<Pipeline.JobInfo>): (inputs: seq<Input>)
    ensures |inputs| == |jobs| && forall i :: 0 <= i < |jobs| ==> inputs[i] == Enqueue(jobs[i])
  {
    seq(|jobs|, i requires 0 <= i < |jobs| => Enqueue(jobs[i]))
  }

  function Polls(worlds: seq<Pipeline.World>): (inputs: seq<Input>)
    ensures |inputs| == |worlds| && forall i :: 0 <= i < |worlds| ==> inputs[i] == Poll(worlds[i])
  {
    seq(|worlds|, i requires 0 <= i < |worlds| => Poll(worlds[i]))
  }

  lemma {:induction false} DriveEnqueues(jobs: seq<Pipeline.JobInfo>, render: Renderer)
    ensures Drive(Enqueues(jobs), render) == Init.(queue := jobs)
  {
    if jobs != [] {
      var init := jobs[..|jobs| - 1];
      assert Enqueues(jobs)[..|jobs| - 1] == Enqueues(init);
      DriveEnqueues(init, render);
      assert init + [jobs[|jobs| - 1]] == jobs;
    }
  }

  /** What the state is after k polls of a batch of K jobs enqueued up front. */
  predicate BatchAfter(s: State, jobs: seq<Pipeline.JobInfo>, k: nat) {
    && k <= |jobs|
    && s.alive
    && s.queue == jobs[k..]
    && s.jobCount == k
    && |s.dispatched| == k
    && (forall i :: 0 <= i < k ==> s.dispatched[i] == Stamp(jobs[i], i + 1, |jobs| - i - 1))
    && (s.processing <==> 0 < k < |jobs|)
    && (RenderEnd in s.notices <==> k == |jobs| && k > 0)
  }

  /** A renderer whose jobs never raise out of the render job. */
  ghost predicate NeverEscapes(render: Renderer) {
    forall job, world :: render(job, world).escaped.None?
  }

  lemma SettleEnds(t: State, run: Pipeline.Run)
    requires run.escaped.None?
    ensures RenderEnd in Settle(t, run).notices <==> RenderEnd in t.notices || t.queue == []
  {
    assert RenderEnd !in Forwarded(run.events);
  }

  lemma BatchStep(s: State, jobs: seq<Pipeline.JobInfo>, k: nat, world: Pipeline.World, render: Renderer)
    requires NeverEscapes(render)
    requires 0 < k <= |jobs| && BatchAfter(s, jobs, k - 1)
    ensures BatchAfter(Step(s, world, render), jobs, k)
  {
    var (t, job) := Take(s);
    var run := render(job, world);
    SettleEnds(t, run);
    var r := Step(s, world, render);
    assert r == Settle(t, run);
    assert t.queue == jobs[k..];
    forall i | 0 <= i < k ensures r.dispatched[i] == Stamp(jobs[i], i + 1, |jobs| - i - 1) {
      if i < k - 1 { assert r.dispatched[i] == s.dispatched[i]; }
    }
  }

  lemma {:induction false} BatchProgress(
    jobs: seq<Pipeline.JobInfo>, worlds: seq<Pipeline.World>, k: nat, render: Renderer)
    requires NeverEscapes(render)
    requires k <= |worlds| <= |jobs|
    ensures BatchAfter(Drive(Enqueues(jobs) + Polls(worlds[..k]), render), jobs, k)
  {
    var inputs := Enqueues(jobs) + Polls(worlds[..k]);
    if k == 0 {
      assert inputs == Enqueues(jobs);
      DriveEnqueues(jobs, render);
    } else {
      var prev := Enqueues(jobs) + Polls(worlds[..k - 1]);
      assert inputs[..|inputs| - 1] == prev;
      assert inputs[|inputs| - 1] == Poll(worlds[k - 1]);
      BatchProgress(jobs, worlds, k - 1, render);
      BatchStep(Drive(prev, render), jobs, k, worlds[k - 1], render);
    }
  }

  /** A batch of K jobs enqueued before the thread looks, rendered by the
      guarded render job: after K polls the i-th job enqueued was rendered
      i-th, numbered i + 1 and told that K - i - 1 jobs remained; the queue
      is empty, `is_processing` is false and the end notice has been sent. */
  lemma BatchIsRenderedInOrder(
    jobs: seq<Pipeline.JobInfo>, worlds: seq<Pipeline.World>, svc: Pipeline.Services, host: Pipeline.Host)
    requires 0 < |jobs| == |worlds|
    ensures var s := Drive(Enqueues(jobs) + Polls(worlds), JobRunner(svc, host, true));
      && s.queue == [] && !s.processing
      && |s.dispatched| == |jobs|
      && (forall i :: 0 <= i < |jobs| ==> s.dispatched[i] == Stamp(jobs[i], i + 1, |jobs| - i - 1))
      && RenderEnd in s.notices
  {
    GuardedRunnerReportsOnce(svc, host);
    assert NeverEscapes(JobRunner(svc, host, true));
    BatchProgress(jobs, worlds, |worlds|, JobRunner(svc, host, true));
    assert worlds[..|worlds|] == worlds;
  }
}
