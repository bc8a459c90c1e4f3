/** typescript/src/base/server.ts: the promise chain that serializes handlers and state reads. */
module Serializer {
  import opened Options

  // ---------------------------------------------------------------- handlers

  datatype Ending<R> = Returned(value: R) | Thrown(error: nat)

  /** One synchronous stretch of a handler, up to its next await or its end. */
  datatype Turn<S, L, R> = Suspended(app: S, local: L) | Ended(app: S, ending: Ending<R>)

  /** A handler: local state at the call, and what it does to shared and local state per turn. */
  datatype Task<!S, !L, R> = Task(start: L, turn: (S, L) -> Turn<S, L, R>)

  /** A handler run on its own for n turns from shared state `app`. */
  function Alone<S, L, R>(task: Task<S, L, R>, app: S, n: nat): Turn<S, L, R> {
    if n == 0 then Suspended(app, task.start)
    else
      var t := Alone(task, app, n - 1);
      if t.Suspended? then task.turn(t.app, t.local) else t
  }

  // ---------------------------------------------------------------- event loop

  /** Fulfilled(None) is fulfilled with undefined. */
  datatype Promise<R> = Pending | Fulfilled(value: Option<R>) | Rejected(error: nat)

  datatype Phase<L> = Waiting | Running(local: L) | Finished

  /** One call of serialize: `run` is queue.then(fn, fn) on promise `after`, and `next` is
      run.then(undefined, undefined); `turns` counts the turns taken. */
  datatype Job<!S, !L, R> = Job(task: Task<S, L, R>, after: nat, run: nat, next: nat, phase: Phase<L>, turns: nat)

  datatype Loop<!S, !L, R> = Loop(app: S, promises: seq<Promise<R>>, queue: nat, jobs: seq<Job<S, L, R>>)

  datatype Move<!S, !L, R> = Serialize(task: Task<S, L, R>) | TakeTurn(k: nat) | Advance(k: nat)

  function PromiseOf<R>(e: Ending<R>): Promise<R> {
    match e case Returned(v) => Fulfilled(Some(v)) case Thrown(x) => Rejected(x)
  }

  function Chain<S, L, R>(st: Loop<S, L, R>, task: Task<S, L, R>): Loop<S, L, R> {
    var run := |st.promises|;
    st.(promises := st.promises + [Pending, Pending],
        queue := run + 1,
        jobs := st.jobs + [Job(task, st.queue, run, run + 1, Waiting, 0)])
  }

  /** The reaction of job k can run: its predecessor promise is settled, either way. */
  predicate CanTurn<S, L, R>(st: Loop<S, L, R>, k: nat) {
    && k < |st.jobs| && st.jobs[k].run < |st.promises| && st.jobs[k].after < |st.promises|
    && (st.jobs[k].phase.Running? || (st.jobs[k].phase.Waiting? && !st.promises[st.jobs[k].after].Pending?))
  }

  function NextTurn<S, L, R>(st: Loop<S, L, R>, k: nat): Turn<S, L, R>
    requires k < |st.jobs|
  {
    var j := st.jobs[k];
    j.task.turn(st.app, if j.phase.Running? then j.phase.local else j.task.start)
  }

  function AfterTurn<S, L, R>(st: Loop<S, L, R>, k: nat): Loop<S, L, R>
    requires CanTurn(st, k)
  {
    var j := st.jobs[k];
    match NextTurn(st, k)
    case Suspended(app, local) =>
      st.(app := app, jobs := st.jobs[k := j.(phase := Running(local), turns := j.turns + 1)])
    case Ended(app, ending) =>
      st.(app := app, jobs := st.jobs[k := j.(phase := Finished, turns := j.turns + 1)],
          promises := st.promises[j.run := PromiseOf(ending)])
  }

  predicate CanAdvance<S, L, R>(st: Loop<S, L, R>, k: nat) {
    && k < |st.jobs| && st.jobs[k].run < |st.promises| && st.jobs[k].next < |st.promises|
    && !st.promises[st.jobs[k].run].Pending? && st.promises[st.jobs[k].next].Pending?
  }

  function AfterAdvance<S, L, R>(st: Loop<S, L, R>, k: nat): Loop<S, L, R>
    requires CanAdvance(st, k)
  {
    st.(promises := st.promises[st.jobs[k].next := Fulfilled(None)])
  }

  predicate Enabled<S, L, R>(st: Loop<S, L, R>, m: Move<S, L, R>) {
    match m case Serialize(_) => true case TakeTurn(k) => CanTurn(st, k) case Advance(k) => CanAdvance(st, k)
  }

  function Step<S, L, R>(st: Loop<S, L, R>, m: Move<S, L, R>): Loop<S, L, R>
    requires Enabled(st, m)
  {
    match m
    case Serialize(task) => Chain(st, task)
    case TakeTurn(k) => AfterTurn(st, k)
    case Advance(k) => AfterAdvance(st, k)
  }

  /** Any schedule of arrivals, turns and promise reactions; a move that is not enabled at its
      point does not happen. */
  function Run<S, L, R>(st: Loop<S, L, R>, moves: seq<Move<S, L, R>>): Loop<S, L, R> {
    if moves == [] then st
    else
      var mid := Run(st, moves[..|moves| - 1]);
      var m := moves[|moves| - 1];
      if Enabled(mid, m) then Step(mid, m) else mid
  }

  function Idle<S, L, R>(app: S): Loop<S, L, R> {
    Loop(app, [Fulfilled(None)], 0, [])
  }

  // ---------------------------------------------------------------- sequential meaning

  /** Shared state after the first k jobs, run alone one after the other for their turns. */
  function Folded<S, L, R>(jobs: seq<Job<S, L, R>>, app: S, k: nat): S
    requires k <= |jobs|
  {
    if k == 0 then app else Alone(jobs[k - 1].task, Folded(jobs, app, k - 1), jobs[k - 1].turns).app
  }

  /** How far job k's own sequential run has got. */
  function Progress<S, L, R>(jobs: seq<Job<S, L, R>>, app: S, k: nat): Turn<S, L, R>
    requires k < |jobs|
  {
    Alone(jobs[k].task, Folded(jobs, app, k), jobs[k].turns)
  }

  lemma {:induction false} FoldedPrefix<S, L, R>(a: seq<Job<S, L, R>>, b: seq<Job<S, L, R>>, app: S, k: nat)
    requires k <= |a| && k <= |b|
    requires forall i | 0 <= i < k :: a[i].task == b[i].task && a[i].turns == b[i].turns
    ensures Folded(a, app, k) == Folded(b, app, k)
  {
    if k > 0 {
      FoldedPrefix(a, b, app, k - 1);
    }
  }

  // ---------------------------------------------------------------- invariant

  /** Job k is chained on its predecessor's queue promise and feeds its own. */
  predicate Linked<S, L, R>(st: Loop<S, L, R>, k: nat)
    requires k < |st.jobs|
  {
    st.jobs[k].after == 2 * k && st.jobs[k].run == 2 * k + 1 && st.jobs[k].next == 2 * k + 2
  }

  predicate Wired<S, L, R>(st: Loop<S, L, R>) {
    && |st.promises| == 2 * |st.jobs| + 1 && st.queue == 2 * |st.jobs|
    && st.promises[0] == Fulfilled(None)
    && (forall k | 0 <= k < |st.jobs| :: Linked(st, k))
  }

  ghost predicate Done<S, L, R>(st: Loop<S, L, R>, app: S, k: nat)
    requires Wired(st) && k < |st.jobs|
  {
    && st.jobs[k].phase == Finished && Progress(st.jobs, app, k).Ended?
    && st.promises[2 * k + 1] == PromiseOf(Progress(st.jobs, app, k).ending)
  }

  predicate Untouched<S, L, R>(st: Loop<S, L, R>, k: nat)
    requires Wired(st) && k < |st.jobs|
  {
    st.jobs[k].phase == Waiting && st.jobs[k].turns == 0
    && st.promises[2 * k + 1] == Pending && st.promises[2 * k + 2] == Pending
  }

  /** The job at the frontier: not begun, suspended, or settled but not yet passed on. */
  ghost predicate Current<S, L, R>(st: Loop<S, L, R>, app: S, f: nat)
    requires Wired(st) && f < |st.jobs|
  {
    && st.promises[2 * f + 2] == Pending
    && st.app == Progress(st.jobs, app, f).app
    && (Untouched(st, f)
        || (st.jobs[f].phase.Running? && st.promises[2 * f + 1] == Pending
            && Progress(st.jobs, app, f) == Suspended(st.app, st.jobs[f].phase.local))
        || Done(st, app, f))
  }

  /** Jobs before f are over and passed on, job f is current, later ones are untouched. */
  ghost predicate Inv<S, L, R>(st: Loop<S, L, R>, app: S, f: nat) {
    && Wired(st) && f <= |st.jobs|
    && (forall k | 0 <= k < f :: Done(st, app, k) && st.promises[2 * k + 2] == Fulfilled(None))
    && (forall k | f < k < |st.jobs| :: Untouched(st, k))
    && (if f < |st.jobs| then Current(st, app, f) else st.app == Folded(st.jobs, app, f))
  }

  lemma ChainKeepsInv<S, L, R>(st: Loop<S, L, R>, app: S, f: nat, task: Task<S, L, R>)
    requires Inv(st, app, f)
    ensures Inv(Chain(st, task), app, f)
  {
    var st' := Chain(st, task);
    forall k | 0 <= k < |st'.jobs| ensures Linked(st', k) {
      assert k < |st.jobs| ==> Linked(st, k);
    }
    assert Wired(st');
    forall k | 0 <= k <= |st.jobs| ensures Folded(st'.jobs, app, k) == Folded(st.jobs, app, k) {
      FoldedPrefix(st'.jobs, st.jobs, app, k);
    }
    forall k | 0 <= k < f ensures Done(st', app, k) && st'.promises[2 * k + 2] == Fulfilled(None) {
      assert Done(st, app, k);
    }
    forall k | f < k < |st'.jobs| ensures Untouched(st', k) {
      assert k < |st.jobs| ==> Untouched(st, k);
    }
    if f < |st.jobs| {
      assert Untouched(st, f) ==> Untouched(st', f);
      assert Done(st, app, f) ==> Done(st', app, f);
    } else {
      assert Untouched(st', f);
    }
    assert Current(st', app, f);
  }

  /** Where job k stands, seen from the frontier. */
  lemma Standing<S, L, R>(st: Loop<S, L, R>, app: S, f: nat, k: nat)
    requires Inv(st, app, f) && k < |st.jobs|
    ensures Linked(st, k)
    ensures k < f ==> Done(st, app, k) && !st.promises[2 * k + 2].Pending?
    ensures k > f ==> Untouched(st, k)
    ensures k == f ==> st.promises[2 * k + 2].Pending?
                       && (st.jobs[k].phase.Finished? <==> !st.promises[2 * k + 1].Pending?)
  {
  }

  lemma TurnIsFrontier<S, L, R>(st: Loop<S, L, R>, app: S, f: nat, k: nat)
    requires Inv(st, app, f) && CanTurn(st, k)
    ensures k == f && !st.jobs[f].phase.Finished?
  {
    Standing(st, app, f, k);
    if k > 0 {
      Standing(st, app, f, k - 1);
    }
  }

  /** Only the frontier job can take a turn, and the turn is the next of its sequential run. */
  lemma TurnKeepsInv<S, L, R>(st: Loop<S, L, R>, app: S, f: nat, k: nat)
    requires Inv(st, app, f) && CanTurn(st, k)
    ensures k == f && Inv(AfterTurn(st, k), app, f)
  {
    TurnIsFrontier(st, app, f, k);
    var st' := AfterTurn(st, k);
    assert Linked(st, f);
    forall i | 0 <= i < |st'.jobs| ensures Linked(st', i) {
      assert Linked(st, i);
    }
    assert Wired(st');
    forall i | 0 <= i <= f ensures Folded(st'.jobs, app, i) == Folded(st.jobs, app, i) {
      FoldedPrefix(st'.jobs, st.jobs, app, i);
    }
    forall i | 0 <= i < f ensures Done(st', app, i) && st'.promises[2 * i + 2] == Fulfilled(None) {
      assert Done(st, app, i);
    }
    forall i | f < i < |st'.jobs| ensures Untouched(st', i) {
      assert Untouched(st, i);
    }
    assert Progress(st'.jobs, app, f) == NextTurn(st, f);
    assert NextTurn(st, f).Ended? ==> Done(st', app, f);
    assert Current(st', app, f);
  }

  lemma AdvanceIsFrontier<S, L, R>(st: Loop<S, L, R>, app: S, f: nat, k: nat)
    requires Inv(st, app, f) && CanAdvance(st, k)
    ensures k == f && Done(st, app, f)
  {
    Standing(st, app, f, k);
  }

  lemma AdvanceKeepsInv<S, L, R>(st: Loop<S, L, R>, app: S, f: nat, k: nat)
    requires Inv(st, app, f) && CanAdvance(st, k)
    ensures k == f && Inv(AfterAdvance(st, k), app, f + 1)
  {
    AdvanceIsFrontier(st, app, f, k);
    var st' := AfterAdvance(st, k);
    assert Linked(st, f);
    forall i | 0 <= i < |st'.jobs| ensures Linked(st', i) {
      assert Linked(st, i);
    }
    assert Wired(st');
    forall i | 0 <= i < f + 1 ensures Done(st', app, i) && st'.promises[2 * i + 2] == Fulfilled(None) {
      assert i < f ==> Done(st, app, i);
    }
    forall i | f < i < |st'.jobs| ensures Untouched(st', i) {
      assert Untouched(st, i);
    }
    assert Folded(st'.jobs, app, f + 1) == st.app;
    if f + 1 < |st'.jobs| {
      assert Untouched(st', f + 1);
      assert Progress(st'.jobs, app, f + 1) == Suspended(st.app, st'.jobs[f + 1].task.start);
      assert Current(st', app, f + 1);
    }
  }

  /** Every schedule from an idle server leads to a state with a frontier. */
  lemma {:induction false} RunInv<S, L, R>(app: S, moves: seq<Move<S, L, R>>) returns (f: nat)
    ensures Inv(Run(Idle<S, L, R>(app), moves), app, f)
  {
    if moves == [] {
      f := 0;
    } else {
      var m := moves[|moves| - 1];
      f := RunInv(app, moves[..|moves| - 1]);
      var mid := Run(Idle<S, L, R>(app), moves[..|moves| - 1]);
      if Enabled(mid, m) {
        match m
        case Serialize(task) => ChainKeepsInv(mid, app, f, task);
        case TakeTurn(k) => TurnKeepsInv(mid, app, f, k);
        case Advance(k) =>
          AdvanceKeepsInv(mid, app, f, k);
          f := f + 1;
      }
    }
  }

  // ---------------------------------------------------------------- main results

  /** At most one handler is in flight, and a handler has begun only when every earlier one is
      over: handlers run one at a time in the order serialize was called. */
  lemma OneAtATime<S, L, R>(app: S, moves: seq<Move<S, L, R>>, i: nat, j: nat)
    requires i < j < |Run(Idle<S, L, R>(app), moves).jobs|
    ensures var jobs := Run(Idle<S, L, R>(app), moves).jobs;
            && !(jobs[i].phase.Running? && jobs[j].phase.Running?)
            && (!jobs[j].phase.Waiting? ==> jobs[i].phase.Finished?)
  {
    var f := RunInv<S, L, R>(app, moves);
    var st := Run(Idle<S, L, R>(app), moves);
    assert j > f ==> Untouched(st, j);
    assert i < f ==> Done(st, app, i);
  }

  /** Linearizability: whatever the interleaving, each finished call gets the ending its handler
      has when the handlers run alone, one after the other, in enqueue order, from the initial state:
      its promise is fulfilled with the value returned or rejected with the error thrown, and a call
      that is not over has no result yet. */
  lemma EachGetsItsOwn<S, L, R>(app: S, moves: seq<Move<S, L, R>>, k: nat)
    requires k < |Run(Idle<S, L, R>(app), moves).jobs|
    ensures var st := Run(Idle<S, L, R>(app), moves);
            var alone := Progress(st.jobs, app, k);
            && st.jobs[k].run < |st.promises|
            && (st.jobs[k].phase.Finished? <==> alone.Ended?)
            && (match alone
                case Suspended(_, _) => st.promises[st.jobs[k].run] == Pending
                case Ended(_, Returned(value)) => st.promises[st.jobs[k].run] == Fulfilled(Some(value))
                case Ended(_, Thrown(error)) => st.promises[st.jobs[k].run] == Rejected(error))
  {
    var f := RunInv<S, L, R>(app, moves);
    PromiseHolds(Run(Idle<S, L, R>(app), moves), app, f, k);
  }

  lemma PromiseHolds<S, L, R>(st: Loop<S, L, R>, app: S, f: nat, k: nat)
    requires Inv(st, app, f) && k < |st.jobs|
    ensures var alone := Progress(st.jobs, app, k);
            && st.jobs[k].run == 2 * k + 1 < |st.promises|
            && (st.jobs[k].phase.Finished? <==> alone.Ended?)
            && (alone.Suspended? ==> st.promises[2 * k + 1] == Pending)
            && (alone.Ended? ==> st.promises[2 * k + 1] == match alone.ending
                                                           case Returned(value) => Fulfilled(Some(value))
                                                           case Thrown(error) => Rejected(error))
  {
    Standing(st, app, f, k);
  }

  /** The shared state is always the sequential fold of all handlers' turns so far. */
  lemma StateIsFold<S, L, R>(app: S, moves: seq<Move<S, L, R>>)
    ensures var st := Run(Idle<S, L, R>(app), moves);
            st.app == Folded(st.jobs, app, |st.jobs|)
  {
    var f := RunInv<S, L, R>(app, moves);
    var st := Run(Idle<S, L, R>(app), moves);
    if f < |st.jobs| {
      UntouchedFold(st, app, f + 1, |st.jobs|);
    }
  }

  lemma {:induction false} UntouchedFold<S, L, R>(st: Loop<S, L, R>, app: S, from: nat, k: nat)
    requires Wired(st) && from <= k <= |st.jobs|
    requires forall i | from <= i < |st.jobs| :: Untouched(st, i)
    ensures Folded(st.jobs, app, k) == Folded(st.jobs, app, from)
  {
    if from < k {
      UntouchedFold(st, app, from, k - 1);
      assert Untouched(st, k - 1);
    }
  }

  /** A state read is a handler of one turn that changes nothing. */
  function StateRead<S, L, R>(view: S -> R, unit: L): Task<S, L, R> {
    Task(unit, (app: S, _: L) => Ended(app, Returned(view(app))))
  }

  /** A finished state read reports the fold of exactly the handlers enqueued before it. */
  lemma ReadsAreSequential<S, L, R>(app: S, moves: seq<Move<S, L, R>>, k: nat, view: S -> R, unit: L)
    requires k < |Run(Idle<S, L, R>(app), moves).jobs|
    requires Run(Idle<S, L, R>(app), moves).jobs[k].task == StateRead(view, unit)
    requires Run(Idle<S, L, R>(app), moves).jobs[k].phase.Finished?
    ensures var st := Run(Idle<S, L, R>(app), moves);
            && st.jobs[k].run < |st.promises|
            && st.promises[st.jobs[k].run] == Fulfilled(Some(view(Folded(st.jobs, app, k))))
  {
    EachGetsItsOwn<S, L, R>(app, moves, k);
    var st := Run(Idle<S, L, R>(app), moves);
    ReadAlone(view, unit, Folded(st.jobs, app, k), st.jobs[k].turns);
  }

  lemma {:induction false} ReadAlone<S, L, R>(view: S -> R, unit: L, app: S, n: nat)
    ensures Alone(StateRead(view, unit), app, n)
            == if n == 0 then Suspended(app, unit) else Ended(app, Returned(view(app)))
  {
    if n > 0 {
      ReadAlone(view, unit, app, n - 1);
    }
  }

  /** Progress: while any call is unfinished exactly one move of the event loop is enabled, a turn
      of the first call not passed on or, once that call has settled, by returning or by throwing,
      the hand-over to its successor. */
  lemma ExactlyOneMove<S, L, R>(app: S, moves: seq<Move<S, L, R>>) returns (f: nat)
    ensures var st := Run(Idle<S, L, R>(app), moves);
            && f <= |st.jobs|
            && (forall k | 0 <= k < f :: st.jobs[k].phase.Finished?)
            && (forall k :: CanTurn(st, k) <==> k == f && f < |st.jobs| && !st.jobs[f].phase.Finished?)
            && (forall k :: CanAdvance(st, k) <==> k == f && f < |st.jobs| && st.jobs[f].phase.Finished?)
  {
    f := RunInv<S, L, R>(app, moves);
    var st := Run(Idle<S, L, R>(app), moves);
    forall k: nat ensures CanTurn(st, k) <==> k == f && f < |st.jobs| && !st.jobs[f].phase.Finished? {
      if CanTurn(st, k) {
        TurnIsFrontier(st, app, f, k);
      }
      FrontierReady(st, app, f);
    }
    forall k: nat ensures CanAdvance(st, k) <==> k == f && f < |st.jobs| && st.jobs[f].phase.Finished? {
      if CanAdvance(st, k) {
        AdvanceKeepsInv(st, app, f, k);
      }
      FrontierReady(st, app, f);
    }
    forall k | 0 <= k < f ensures st.jobs[k].phase.Finished? {
      assert Done(st, app, k);
    }
  }

  lemma FrontierReady<S, L, R>(st: Loop<S, L, R>, app: S, f: nat)
    requires Inv(st, app, f)
    ensures f < |st.jobs| ==>
              && (CanTurn(st, f) <==> !st.jobs[f].phase.Finished?)
              && (CanAdvance(st, f) <==> st.jobs[f].phase.Finished?)
  {
    if f < |st.jobs| {
      assert Linked(st, f);
      assert f > 0 ==> Done(st, app, f - 1) && st.promises[2 * (f - 1) + 2] == Fulfilled(None);
    }
  }

  lemma SuccessorReady<S, L, R>(st: Loop<S, L, R>, app: S, f: nat, k: nat)
    requires Inv(st, app, f) && k + 1 < |st.jobs|
    requires st.jobs[k].phase.Finished? && st.jobs[k + 1].phase.Waiting?
    ensures CanTurn(st, k + 1) || (CanAdvance(st, k) && CanTurn(AfterAdvance(st, k), k + 1))
  {
    assert Untouched(st, k) || k <= f;
    assert Done(st, app, k + 1) || f <= k + 1;
    FrontierReady(st, app, f);
    if k == f {
      AdvanceKeepsInv(st, app, f, k);
      FrontierReady(AfterAdvance(st, k), app, f + 1);
    }
  }

  /** A call that threw blocks nobody: at most one hand-over later its successor can begin. */
  lemma ThrowingNeverBlocks<S, L, R>(app: S, moves: seq<Move<S, L, R>>, k: nat)
    requires k + 1 < |Run(Idle<S, L, R>(app), moves).jobs|
    requires Run(Idle<S, L, R>(app), moves).jobs[k].phase.Finished?
    requires Run(Idle<S, L, R>(app), moves).jobs[k + 1].phase.Waiting?
    ensures var st := Run(Idle<S, L, R>(app), moves);
            CanTurn(st, k + 1) || (CanAdvance(st, k) && CanTurn(AfterAdvance(st, k), k + 1))
  {
    var f := RunInv<S, L, R>(app, moves);
    SuccessorReady(Run(Idle<S, L, R>(app), moves), app, f, k);
  }

  // ---------------------------------------------------------------- termination

  /** Turns and the hand-over a job still needs if its handler ends within `bound` turns. */
  function Left<S, L, R>(st: Loop<S, L, R>, bound: nat, k: nat): int
    requires Wired(st) && k < |st.jobs|
  {
    if !st.promises[2 * k + 2].Pending? then 0
    else if st.jobs[k].phase.Finished? then 1
    else bound - st.jobs[k].turns + 1
  }

  function Ahead<S, L, R>(st: Loop<S, L, R>, bound: nat, n: nat): int
    requires Wired(st) && n <= |st.jobs|
  {
    if n == 0 then 0 else Ahead(st, bound, n - 1) + Left(st, bound, n - 1)
  }

  lemma {:induction false} AheadChange<S, L, R>(st: Loop<S, L, R>, st': Loop<S, L, R>, bound: nat, f: nat, n: nat)
    requires Wired(st) && Wired(st') && |st'.jobs| == |st.jobs| && n <= |st.jobs|
    requires forall k | 0 <= k < n && k != f :: Left(st', bound, k) == Left(st, bound, k)
    ensures Ahead(st', bound, n) - Ahead(st, bound, n)
            == if f < n then Left(st', bound, f) - Left(st, bound, f) else 0
  {
    if n > 0 {
      AheadChange(st, st', bound, f, n - 1);
    }
  }

  lemma {:induction false} EndedStays<S, L, R>(task: Task<S, L, R>, app: S, n: nat, m: nat)
    requires n <= m && Alone(task, app, n).Ended?
    ensures Alone(task, app, m) == Alone(task, app, n)
  {
    if n < m {
      EndedStays(task, app, n, m - 1);
    }
  }

  /** In every reachable state, a turn of a handler that, run alone, ends within `bound` turns and
      every hand-over bring the queue strictly closer to empty, however many handlers throw. */
  lemma EveryMoveIsProgress<S, L, R>(app: S, moves: seq<Move<S, L, R>>, m: Move<S, L, R>, bound: nat)
    requires Enabled(Run(Idle<S, L, R>(app), moves), m) && !m.Serialize?
    requires m.TakeTurn? ==>
               var jobs := Run(Idle<S, L, R>(app), moves).jobs;
               Alone(jobs[m.k].task, Folded(jobs, app, m.k), bound).Ended?
    ensures var st := Run(Idle<S, L, R>(app), moves);
            var st' := Step(st, m);
            && Wired(st) && Wired(st') && |st'.jobs| == |st.jobs|
            && 0 <= Ahead(st', bound, |st.jobs|) < Ahead(st, bound, |st.jobs|)
  {
    var f := RunInv<S, L, R>(app, moves);
    var st := Run(Idle<S, L, R>(app), moves);
    if m.TakeTurn? {
      TurnIsProgress(app, st, f, m.k, bound);
    } else {
      AdvanceIsProgress(app, st, f, m.k, bound);
    }
  }

  lemma TurnIsProgress<S, L, R>(app: S, st: Loop<S, L, R>, f: nat, k: nat, bound: nat)
    requires Inv(st, app, f) && CanTurn(st, k)
    requires Alone(st.jobs[k].task, Folded(st.jobs, app, k), bound).Ended?
    ensures Wired(AfterTurn(st, k)) && |AfterTurn(st, k).jobs| == |st.jobs|
    ensures 0 <= Ahead(AfterTurn(st, k), bound, |st.jobs|) < Ahead(st, bound, |st.jobs|)
  {
    TurnIsFrontier(st, app, f, k);
    TurnKeepsInv(st, app, f, k);
    Standing(st, app, f, f);
    if st.jobs[f].turns >= bound {
      EndedStays(st.jobs[f].task, Folded(st.jobs, app, f), bound, st.jobs[f].turns);
    }
    AheadChange(st, AfterTurn(st, k), bound, f, |st.jobs|);
    AheadNotNegative(AfterTurn(st, k), app, f, bound, |st.jobs|);
  }

  lemma AdvanceIsProgress<S, L, R>(app: S, st: Loop<S, L, R>, f: nat, k: nat, bound: nat)
    requires Inv(st, app, f) && CanAdvance(st, k)
    ensures Wired(AfterAdvance(st, k)) && |AfterAdvance(st, k).jobs| == |st.jobs|
    ensures 0 <= Ahead(AfterAdvance(st, k), bound, |st.jobs|) < Ahead(st, bound, |st.jobs|)
  {
    AdvanceIsFrontier(st, app, f, k);
    AdvanceKeepsInv(st, app, f, k);
    Standing(st, app, f, f);
    if f + 1 < |st.jobs| {
      Standing(st, app, f, f + 1);
    }
    AheadChange(st, AfterAdvance(st, k), bound, f, |st.jobs|);
    AheadNotNegative(AfterAdvance(st, k), app, f + 1, bound, |st.jobs|);
  }

  lemma {:induction false} AheadNotNegative<S, L, R>(st: Loop<S, L, R>, app: S, f: nat, bound: nat, n: nat)
    requires Inv(st, app, f) && n <= |st.jobs|
    requires f < |st.jobs| && !st.jobs[f].phase.Finished? ==> st.jobs[f].turns <= bound
    ensures Ahead(st, bound, n) >= 0
  {
    if n > 0 {
      AheadNotNegative(st, app, f, bound, n - 1);
      assert n - 1 < f ==> Done(st, app, n - 1);
      assert n - 1 > f ==> Untouched(st, n - 1);
    }
  }

  /** Shared state after the first k jobs, each run alone for `bound` turns. */
  function Whole<S, L, R>(jobs: seq<Job<S, L, R>>, app: S, bound: nat, k: nat): S
    requires k <= |jobs|
  {
    if k == 0 then app else Alone(jobs[k - 1].task, Whole(jobs, app, bound, k - 1), bound).app
  }

  /** Run one after the other, every handler ends within `bound` turns. */
  predicate AllEnd<S, L, R>(jobs: seq<Job<S, L, R>>, app: S, bound: nat) {
    forall k | 0 <= k < |jobs| :: Alone(jobs[k].task, Whole(jobs, app, bound, k), bound).Ended?
  }

  ghost predicate SameTasks<S, L, R>(a: seq<Job<S, L, R>>, b: seq<Job<S, L, R>>) {
    |a| == |b| && forall k | 0 <= k < |a| :: a[k].task == b[k].task
  }

  lemma {:induction false} WholeSame<S, L, R>(a: seq<Job<S, L, R>>, b: seq<Job<S, L, R>>, app: S, bound: nat, k: nat)
    requires SameTasks(a, b) && k <= |a|
    ensures Whole(a, app, bound, k) == Whole(b, app, bound, k)
  {
    if k > 0 {
      WholeSame(a, b, app, bound, k - 1);
    }
  }

  lemma AllEndSame<S, L, R>(a: seq<Job<S, L, R>>, b: seq<Job<S, L, R>>, app: S, bound: nat)
    requires SameTasks(a, b) && AllEnd(a, app, bound)
    ensures AllEnd(b, app, bound)
  {
    forall k | 0 <= k < |b| ensures Alone(b[k].task, Whole(b, app, bound, k), bound).Ended? {
      WholeSame(a, b, app, bound, k);
    }
  }

  /** Up to the frontier the turns taken are all the turns there are. */
  lemma {:induction false} FoldedIsWhole<S, L, R>(st: Loop<S, L, R>, app: S, f: nat, bound: nat, k: nat)
    requires Inv(st, app, f) && AllEnd(st.jobs, app, bound) && k <= f
    ensures Folded(st.jobs, app, k) == Whole(st.jobs, app, bound, k)
  {
    if k > 0 {
      FoldedIsWhole(st, app, f, bound, k - 1);
      assert Done(st, app, k - 1);
      var j, start := st.jobs[k - 1], Folded(st.jobs, app, k - 1);
      if j.turns <= bound {
        EndedStays(j.task, start, j.turns, bound);
      } else {
        EndedStays(j.task, start, bound, j.turns);
      }
    }
  }

  /** The frontier job has turns to spare unless it is over. */
  lemma FrontierWithin<S, L, R>(st: Loop<S, L, R>, app: S, f: nat, bound: nat)
    requires Inv(st, app, f) && AllEnd(st.jobs, app, bound) && f < |st.jobs|
    ensures Alone(st.jobs[f].task, Folded(st.jobs, app, f), bound).Ended?
    ensures !st.jobs[f].phase.Finished? ==> st.jobs[f].turns <= bound
  {
    FoldedIsWhole(st, app, f, bound, f);
    if st.jobs[f].turns > bound {
      EndedStays(st.jobs[f].task, Folded(st.jobs, app, f), bound, st.jobs[f].turns);
    }
  }

  /** Moves other than arrivals, each enabled at its point. */
  predicate Quiet<S, L, R>(st: Loop<S, L, R>, more: seq<Move<S, L, R>>) {
    more != [] ==>
      var front, m := more[..|more| - 1], more[|more| - 1];
      Quiet(st, front) && !m.Serialize? && Enabled(Run(st, front), m)
  }

  lemma QuietMove<S, L, R>(st: Loop<S, L, R>, app: S, f: nat, m: Move<S, L, R>, bound: nat) returns (f': nat)
    requires Inv(st, app, f) && AllEnd(st.jobs, app, bound) && !m.Serialize? && Enabled(st, m)
    ensures Inv(Step(st, m), app, f') && SameTasks(st.jobs, Step(st, m).jobs)
    ensures 0 <= Ahead(Step(st, m), bound, |st.jobs|) < Ahead(st, bound, |st.jobs|)
  {
    if m.TakeTurn? {
      TurnKeepsInv(st, app, f, m.k);
      FrontierWithin(st, app, f, bound);
      TurnIsProgress(app, st, f, m.k, bound);
      f' := f;
    } else {
      AdvanceKeepsInv(st, app, f, m.k);
      AdvanceIsProgress(app, st, f, m.k, bound);
      f' := f + 1;
    }
  }

  lemma {:induction false} QuietRun<S, L, R>(st: Loop<S, L, R>, app: S, f: nat, more: seq<Move<S, L, R>>, bound: nat)
    returns (f': nat)
    requires Inv(st, app, f) && AllEnd(st.jobs, app, bound) && Quiet(st, more)
    ensures Inv(Run(st, more), app, f') && SameTasks(st.jobs, Run(st, more).jobs)
    ensures 0 <= Ahead(Run(st, more), bound, |st.jobs|) <= Ahead(st, bound, |st.jobs|) - |more|
  {
    if more == [] {
      f' := f;
      if f < |st.jobs| {
        FrontierWithin(st, app, f, bound);
      }
      AheadNotNegative(st, app, f, bound, |st.jobs|);
    } else {
      var front := more[..|more| - 1];
      var mid := QuietRun(st, app, f, front, bound);
      AllEndSame(st.jobs, Run(st, front).jobs, app, bound);
      f' := QuietMove(Run(st, front), app, mid, more[|more| - 1], bound);
    }
  }

  /** With nothing ahead, every call is over. */
  lemma NothingAhead<S, L, R>(st: Loop<S, L, R>, app: S, f: nat, bound: nat)
    requires Inv(st, app, f) && AllEnd(st.jobs, app, bound) && Ahead(st, bound, |st.jobs|) <= 0
    ensures f == |st.jobs| && forall k | 0 <= k < |st.jobs| :: st.jobs[k].phase.Finished?
  {
    if f < |st.jobs| {
      FrontierWithin(st, app, f, bound);
      AheadPositive(st, app, f, bound, |st.jobs|);
    }
    forall k | 0 <= k < f ensures st.jobs[k].phase.Finished? {
      assert Done(st, app, k);
    }
  }

  lemma {:induction false} AheadPositive<S, L, R>(st: Loop<S, L, R>, app: S, f: nat, bound: nat, n: nat)
    requires Inv(st, app, f) && f < n <= |st.jobs|
    requires !st.jobs[f].phase.Finished? ==> st.jobs[f].turns <= bound
    ensures Ahead(st, bound, n) > 0
  {
    if n - 1 == f {
      AheadNotNegative(st, app, f, bound, f);
    } else {
      AheadPositive(st, app, f, bound, n - 1);
      assert Untouched(st, n - 1);
    }
  }

  /** All calls that have arrived are over after finitely many moves, however many of them throw: if
      every handler ends within `bound` turns when run in sequence, at most `Ahead` moves can follow
      without an arrival, and once that many have or none is left, every call is finished. */
  lemma AllCallsEnd<S, L, R>(app: S, moves: seq<Move<S, L, R>>, more: seq<Move<S, L, R>>, bound: nat)
    requires var st := Run(Idle<S, L, R>(app), moves); AllEnd(st.jobs, app, bound) && Quiet(st, more)
    ensures var st := Run(Idle<S, L, R>(app), moves);
            var st' := Run(st, more);
            && Wired(st) && SameTasks(st.jobs, st'.jobs) && |more| <= Ahead(st, bound, |st.jobs|)
            && (|more| == Ahead(st, bound, |st.jobs|) || (forall k :: !CanTurn(st', k) && !CanAdvance(st', k)) ==>
                  forall k | 0 <= k < |st'.jobs| :: st'.jobs[k].phase.Finished?)
  {
    var f := RunInv<S, L, R>(app, moves);
    var st := Run(Idle<S, L, R>(app), moves);
    var f' := QuietRun(st, app, f, more, bound);
    var st' := Run(st, more);
    AllEndSame(st.jobs, st'.jobs, app, bound);
    FrontierReady(st', app, f');
    if f' < |st'.jobs| {
      assert CanTurn(st', f') || CanAdvance(st', f');
      if |more| == Ahead(st, bound, |st.jobs|) {
        NothingAhead(st', app, f', bound);
      }
    } else {
      NothingLeft(st', app);
    }
  }

  lemma NothingLeft<S, L, R>(st: Loop<S, L, R>, app: S)
    requires Inv(st, app, |st.jobs|)
    ensures forall k | 0 <= k < |st.jobs| :: st.jobs[k].phase.Finished?
  {
    forall k | 0 <= k < |st.jobs| ensures st.jobs[k].phase.Finished? {
      assert Done(st, app, k);
    }
  }

  // ---------------------------------------------------------------- the server object

  /** The fields of Server this protocol uses, with the event loop's promises made explicit. */
  class Server<!S, !L, R> {
    var app: S
    var promises: seq<Promise<R>>
    var queue: nat
    var jobs: seq<Job<S, L, R>>

    function State(): Loop<S, L, R>
      reads this
    {
      Loop(app, promises, queue, jobs)
    }

    /** private queue = Promise.resolve() */
    constructor (app: S)
      ensures State() == Idle(app)
    {
      this.app := app;
      promises := [Fulfilled(None)];
      queue := 0;
      jobs := [];
    }

    /** serialize(fn): chain fn on the queue, move the queue behind it, return fn's promise. */
    method Serialize(fn: Task<S, L, R>) returns (run: nat)
      modifies this
      ensures State() == Chain(old(State()), fn)
      ensures run == |old(promises)| && promises[run] == Pending && queue == run + 1
    {
      run := |promises|;
      promises := promises + [Pending];
      var after := queue;
      queue := |promises|;
      promises := promises + [Pending];
      jobs := jobs + [Job(fn, after, run, queue, Waiting, 0)];
    }

    /** The event loop runs job k up to its next await or its end. */
    method RunTurn(k: nat)
      requires CanTurn(State(), k)
      modifies this
      ensures State() == AfterTurn(old(State()), k)
    {
      var j := jobs[k];
      var local := if j.phase.Running? then j.phase.local else j.task.start;
      match j.task.turn(app, local)
      case Suspended(app', local') =>
        app := app';
        jobs := jobs[k := j.(phase := Running(local'), turns := j.turns + 1)];
      case Ended(app', ending) =>
        app := app';
        jobs := jobs[k := j.(phase := Finished, turns := j.turns + 1)];
        promises := promises[j.run := PromiseOf(ending)];
    }

    /** run.then(() => undefined, () => undefined) settles the queue promise either way. */
    method PassOn(k: nat)
      requires CanAdvance(State(), k)
      modifies this
      ensures State() == AfterAdvance(old(State()), k)
    {
      promises := promises[jobs[k].next := Fulfilled(None)];
    }
  }
}
