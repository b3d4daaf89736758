/** The worker loop of `spdk_nvme_perf` for one namespace: every task is in flight,
    queued after a failed submission or freed; the depth counter counts the I/O tasks in
    flight, and the I/O budget is never exceeded. */
module PerfWorker {

  /** Where a task is: submitted to the driver, waiting (in `queued_tasks` or in the
      hands of the code), or freed. */
  datatype Place = Flying | Waiting | Freed

  /** `ns_worker_ctx`. Tasks are numbered in the order of their allocation. `tripped`
      records a failure of the assertion at the head of `submit_single_io`. */
  datatype Ctx = Ctx(
    places: seq<Place>,
    queued: seq<nat>,
    depth: int,            // current_queue_depth
    submitted: nat,        // stats.io_submitted
    completed: nat,        // stats.io_completed
    draining: bool,
    numberIos: nat,
    continueOnError: bool,
    tripped: bool)

  function Fresh(numberIos: nat, continueOnError: bool): Ctx {
    Ctx([], [], 0, 0, 0, false, numberIos, continueOnError, false)
  }

  // ------------------------------------------------------------ the operations

  /** `submit_single_io`; `rc` is the answer of the driver. */
  function SubmitSingle(s: Ctx, t: nat, rc: int): (r: Ctx)
    requires t < |s.places|
    ensures |r.places| == |s.places|
  {
    var a := s.(tripped := s.tripped || s.draining);
    var b := if rc == 0 then a.(places := a.places[t := Flying], depth := a.depth + 1, submitted := a.submitted + 1)
             else if s.continueOnError then a.(queued := a.queued + [t])
             else a.(places := a.places[t := Freed]);
    if b.numberIos != 0 && b.submitted >= b.numberIos then b.(draining := true) else b
  }

  /** `task_complete`. */
  function TaskComplete(s: Ctx, t: nat, rc: int): (r: Ctx)
    requires t < |s.places|
    ensures |r.places| == |s.places|
  {
    var a := s.(places := s.places[t := Waiting], depth := s.depth - 1, completed := s.completed + 1);
    if a.draining then a.(places := a.places[t := Freed]) else SubmitSingle(a, t, rc)
  }

  /** `submit_io`: one new task is allocated and submitted for each answer. */
  function SubmitInitial(s: Ctx, rcs: seq<int>): (r: Ctx)
    ensures |r.places| == |s.places| + |rcs|
  {
    if rcs == [] then s
    else
      var t := SubmitInitial(s, rcs[..|rcs| - 1]);
      SubmitSingle(t.(places := t.places + [Waiting]), |t.places|, rcs[|rcs| - 1])
  }

  /** The loop over the swapped-out queue at the head of the main loop. */
  function Resubmit(s: Ctx, swap: seq<nat>, rcs: seq<int>): (r: Ctx)
    requires |rcs| == |swap| && forall j :: 0 <= j < |swap| ==> swap[j] < |s.places|
    ensures |r.places| == |s.places|
    decreases |swap|
  {
    if swap == [] then s
    else
      var t := if s.draining then s.(queued := s.queued + [swap[0]]) else SubmitSingle(s, swap[0], rcs[0]);
      Resubmit(t, swap[1..], rcs[1..])
  }

  datatype Event =
    | Retry(rcs: seq<int>)                          // the queued tasks are submitted again
    | Done(task: nat, gone: bool, rc: int)          // a completion; `gone`: the device was removed
    | Disconnected                                  // the queue pair was lost
    | Drain                                         // the time is over

  predicate Enabled(s: Ctx, e: Event) {
    && (forall j :: 0 <= j < |s.queued| ==> s.queued[j] < |s.places|)
    && match e
       case Retry(rcs) => |rcs| == |s.queued|
       case Done(task, _, _) => task < |s.places| && s.places[task].Flying?
       case Disconnected => true
       case Drain => true
  }

  function Step(s: Ctx, e: Event): Ctx
    requires Enabled(s, e)
  {
    match e
    case Retry(rcs) =>
      if s.continueOnError && !s.draining then Resubmit(s.(queued := []), s.queued, rcs) else s
    case Done(task, gone, rc) => TaskComplete(s.(draining := s.draining || gone), task, rc)
    case Disconnected => s.(draining := true)
    case Drain => s.(draining := true)
  }

  ghost predicate CanRun(s: Ctx, events: seq<Event>)
    decreases |events|
  {
    events == [] || (Enabled(s, events[0]) && CanRun(Step(s, events[0]), events[1..]))
  }

  ghost function Run(s: Ctx, events: seq<Event>): Ctx
    requires CanRun(s, events)
    decreases |events|
  {
    if events == [] then s else Run(Step(s, events[0]), events[1..])
  }

  // ------------------------------------------------------------- conservation

  function Count(ps: seq<Place>, x: Place): (r: nat)
    ensures r <= |ps|
  {
    if ps == [] then 0 else Count(ps[..|ps| - 1], x) + if ps[|ps| - 1] == x then 1 else 0
  }

  lemma {:induction false} CountUpdate(ps: seq<Place>, t: nat, p: Place, x: Place)
    requires t < |ps|
    ensures Count(ps[t := p], x) + (if ps[t] == x then 1 else 0) == Count(ps, x) + (if p == x then 1 else 0)
  {
    var n := |ps| - 1;
    if t < n {
      assert ps[t := p][..n] == ps[..n][t := p];
      CountUpdate(ps[..n], t, p, x);
    } else {
      assert ps[t := p][..n] == ps[..n];
    }
  }

  lemma CountMove(ps: seq<Place>, t: nat, p: Place)
    requires t < |ps|
    ensures forall x :: Count(ps[t := p], x) + (if ps[t] == x then 1 else 0) == Count(ps, x) + (if p == x then 1 else 0)
  {
    forall x ensures Count(ps[t := p], x) + (if ps[t] == x then 1 else 0) == Count(ps, x) + (if p == x then 1 else 0) {
      CountUpdate(ps, t, p, x);
    }
  }

  lemma CountNew(ps: seq<Place>)
    ensures forall x :: Count(ps + [Waiting], x) == Count(ps, x) + if x == Waiting then 1 else 0
  {
    assert (ps + [Waiting])[..|ps|] == ps;
  }

  lemma {:induction false} CountTotal(ps: seq<Place>)
    ensures Count(ps, Flying) + Count(ps, Waiting) + Count(ps, Freed) == |ps|
  {
    if ps != [] { CountTotal(ps[..|ps| - 1]); }
  }

  /** The I/O tasks in `list` are waiting, each listed once. */
  ghost predicate Listed(ps: seq<Place>, list: seq<nat>) {
    && (forall j :: 0 <= j < |list| ==> list[j] < |ps| && ps[list[j]].Waiting?)
    && (forall j, k :: 0 <= j < k < |list| ==> list[j] != list[k])
  }

  /** Every task is in one place, the queue and the hands of the code hold all the
      waiting ones, and the counters are right. */
  ghost predicate Conserved(s: Ctx, hand: seq<nat>) {
    && Listed(s.places, s.queued + hand)
    && Count(s.places, Waiting) == |s.queued| + |hand|
    && Count(s.places, Flying) == s.depth
    && s.submitted == s.completed + s.depth
  }

  /** The budget is kept, and reaching it starts the draining. */
  ghost predicate Budgeted(s: Ctx) {
    && !s.tripped
    && (s.numberIos != 0 ==> s.submitted <= s.numberIos && (s.submitted == s.numberIos ==> s.draining))
  }

  /** Submitting the I/O task at the head of the hand. */
  lemma SubmitKeeps(s: Ctx, hand: seq<nat>, rc: int)
    requires Conserved(s, hand) && hand != []
    ensures hand[0] < |s.places| && Conserved(SubmitSingle(s, hand[0], rc), hand[1..])
    ensures Budgeted(s) && !s.draining ==> Budgeted(SubmitSingle(s, hand[0], rc))
  {
    hide Count;
    var t, list := hand[0], s.queued + hand;
    assert t == list[|s.queued|];
    if rc != 0 && s.continueOnError {
      assert (s.queued + [t]) + hand[1..] == list;
    } else {
      CountMove(s.places, t, if rc == 0 then Flying else Freed);
      Unlist(s.places, s.queued, hand, if rc == 0 then Flying else Freed);
    }
  }

  lemma Unlist(ps: seq<Place>, queued: seq<nat>, hand: seq<nat>, p: Place)
    requires Listed(ps, queued + hand) && hand != []
    ensures hand[0] < |ps| && Listed(ps[hand[0] := p], queued + hand[1..])
  {
    var list, rest := queued + hand, queued + hand[1..];
    var at := |queued|;
    assert list[at] == hand[0];
    forall j | 0 <= j < |rest| ensures rest[j] == list[if j < at then j else j + 1] != hand[0] {}
  }

  lemma RequeueKeeps(s: Ctx, hand: seq<nat>)
    requires Conserved(s, hand) && hand != []
    ensures Conserved(s.(queued := s.queued + [hand[0]]), hand[1..])
  {
    assert (s.queued + [hand[0]]) + hand[1..] == s.queued + hand;
  }

  /** A completed task is in the hands of the code. */
  lemma TakeKeeps(s: Ctx, t: nat)
    requires Conserved(s, []) && t < |s.places| && s.places[t].Flying?
    ensures Conserved(s.(places := s.places[t := Waiting], depth := s.depth - 1, completed := s.completed + 1), [t])
  {
    hide Count, Listed;
    CountMove(s.places, t, Waiting);
    assert s.queued + [] == s.queued;
    ListedTake(s.places, s.queued, t);
  }

  lemma ListedTake(ps: seq<Place>, queued: seq<nat>, t: nat)
    requires Listed(ps, queued) && t < |ps| && ps[t].Flying?
    ensures Listed(ps[t := Waiting], queued + [t])
  {
    assert t !in queued;
  }

  lemma CompleteKeeps(s: Ctx, t: nat, rc: int)
    requires Conserved(s, []) && t < |s.places| && s.places[t].Flying?
    ensures var r := TaskComplete(s, t, rc); Conserved(r, []) && (Budgeted(s) ==> Budgeted(r))
  {
    hide Count, Listed, SubmitSingle;
    var a := s.(places := s.places[t := Waiting], depth := s.depth - 1, completed := s.completed + 1);
    TakeKeeps(s, t);
    assert [t][1..] == [];
    if s.draining {
      CountMove(a.places, t, Freed);
      Unlist(a.places, a.queued, [t], Freed);
    } else {
      SubmitKeeps(a, [t], rc);
    }
  }

  lemma {:induction false} ResubmitKeeps(s: Ctx, swap: seq<nat>, rcs: seq<int>)
    requires Conserved(s, swap) && |rcs| == |swap| && forall j :: 0 <= j < |swap| ==> swap[j] < |s.places|
    ensures var r := Resubmit(s, swap, rcs);
      Conserved(r, []) && (Budgeted(s) ==> Budgeted(r)) && r.numberIos == s.numberIos
    decreases |swap|
  {
    hide Count, Listed;
    if swap != [] {
      if s.draining { RequeueKeeps(s, swap); } else { SubmitKeeps(s, swap, rcs[0]); }
      var t := if s.draining then s.(queued := s.queued + [swap[0]]) else SubmitSingle(s, swap[0], rcs[0]);
      ResubmitKeeps(t, swap[1..], rcs[1..]);
    }
  }

  /** Every step conserves the I/O tasks and the budget, never stops the draining, and
      submits nothing once it has begun. */
  lemma StepKeeps(s: Ctx, e: Event)
    requires Conserved(s, []) && Enabled(s, e)
    ensures var r := Step(s, e);
      && Conserved(r, []) && (Budgeted(s) ==> Budgeted(r)) && |r.places| == |s.places| && r.numberIos == s.numberIos
      && (s.draining ==> r.draining && r.submitted == s.submitted)
  {
    hide Count, Resubmit;
    match e
    case Retry(rcs) =>
      if s.continueOnError && !s.draining {
        assert [] + s.queued == s.queued + [];
        ResubmitKeeps(s.(queued := []), s.queued, rcs);
      }
    case Done(task, gone, rc) => CompleteKeeps(s.(draining := s.draining || gone), task, rc);
    case Disconnected =>
    case Drain =>
  }

  lemma {:induction false} RunKeeps(s: Ctx, events: seq<Event>)
    requires Conserved(s, []) && CanRun(s, events)
    ensures var r := Run(s, events);
      && Conserved(r, []) && (Budgeted(s) ==> Budgeted(r)) && |r.places| == |s.places| && r.numberIos == s.numberIos
      && (s.draining ==> r.draining && r.submitted == s.submitted)
    decreases |events|
  {
    hide Conserved, Budgeted, Step, Enabled;
    if events != [] {
      StepKeeps(s, events[0]);
      RunKeeps(Step(s, events[0]), events[1..]);
    }
  }

  /** `submit_io` conserves the I/O tasks. It does not look at the draining flag, so it
      keeps the budget exactly when that allows every submission it makes. */
  lemma {:induction false} InitialKeeps(numberIos: nat, continueOnError: bool, rcs: seq<int>)
    ensures var r := SubmitInitial(Fresh(numberIos, continueOnError), rcs);
      && Conserved(r, []) && r.submitted <= |rcs| && r.numberIos == numberIos && r.completed == 0
      && r.continueOnError == continueOnError
      && (r.draining <==> numberIos != 0 && r.submitted >= numberIos)
      && (numberIos == 0 || |rcs| <= numberIos ==> Budgeted(r))
  {
    hide Count, Listed, Conserved;
    var s := Fresh(numberIos, continueOnError);
    if rcs != [] {
      var n := |rcs| - 1;
      InitialKeeps(numberIos, continueOnError, rcs[..n]);
      var t := SubmitInitial(s, rcs[..n]);
      NewKeeps(t);
      SubmitKeeps(t.(places := t.places + [Waiting]), [n], rcs[n]);
      assert [n][1..] == [];
    } else {
      NoTasks(s);
    }
  }

  lemma NoTasks(s: Ctx)
    requires s.places == [] && s.queued == [] && s.depth == 0 && s.submitted == s.completed == 0
    ensures Conserved(s, [])
  {
  }

  /** A new task is in the hands of the code. */
  lemma NewKeeps(s: Ctx)
    requires Conserved(s, [])
    ensures Conserved(s.(places := s.places + [Waiting]), [|s.places|])
  {
    hide Count;
    CountNew(s.places);
    assert s.queued + [] == s.queued;
  }

  // ------------------------------------------------------------- main results

  /** Task conservation in every state of every run, whatever the driver answers: the
      tasks allocated are those in flight, queued and freed; the depth counter counts
      those in flight and stays within the configured depth; and what was submitted is
      completed or in flight. */
  lemma TasksAreConserved(numberIos: nat, continueOnError: bool, rcs: seq<int>, events: seq<Event>)
    requires CanRun(SubmitInitial(Fresh(numberIos, continueOnError), rcs), events)
    ensures var r := Run(SubmitInitial(Fresh(numberIos, continueOnError), rcs), events);
      && Count(r.places, Flying) + |r.queued| + Count(r.places, Freed) == |rcs|
      && 0 <= r.depth == Count(r.places, Flying) <= |rcs|
      && r.submitted == r.completed + r.depth
      && Listed(r.places, r.queued)
  {
    hide Count, CanRun, Run, SubmitInitial, Listed, Fresh;
    InitialKeeps(numberIos, continueOnError, rcs);
    var s := SubmitInitial(Fresh(numberIos, continueOnError), rcs);
    RunKeeps(s, events);
    var r := Run(s, events);
    CountTotal(r.places);
    assert r.queued + [] == r.queued;
    assert |s.places| == |rcs| by { FreshPlaces(numberIos, continueOnError); }
  }

  lemma FreshPlaces(numberIos: nat, continueOnError: bool)
    ensures Fresh(numberIos, continueOnError).places == []
  {
  }

  /** The I/O budget in every state of every run: with a budget of at least the queue
      depth no more I/Os than that are submitted, and the assertion that no I/O is
      submitted while draining never fails. */
  lemma BudgetIsKept(numberIos: nat, continueOnError: bool, rcs: seq<int>, events: seq<Event>)
    requires numberIos != 0 && |rcs| <= numberIos
    requires CanRun(SubmitInitial(Fresh(numberIos, continueOnError), rcs), events)
    ensures var r := Run(SubmitInitial(Fresh(numberIos, continueOnError), rcs), events);
      !r.tripped && r.submitted <= numberIos && (r.submitted == numberIos ==> r.draining)
  {
    hide Count, CanRun, Run, SubmitInitial, Listed, Fresh;
    InitialKeeps(numberIos, continueOnError, rcs);
    RunKeeps(SubmitInitial(Fresh(numberIos, continueOnError), rcs), events);
  }

  // -------------------------------------------------- what becomes of each task

  /** Task `t`, if it waits. */
  function IfWaiting(t: nat, ps: seq<Place>): seq<nat>
    requires t < |ps|
  {
    if ps[t].Waiting? then [t] else []
  }

  /** The tasks of `list` that wait, in their order. */
  function Keep(list: seq<nat>, ps: seq<Place>): seq<nat>
    requires forall j :: 0 <= j < |list| ==> list[j] < |ps|
  {
    if list == [] then [] else IfWaiting(list[0], ps) + Keep(list[1..], ps)
  }

  /** A completed task is freed while draining and otherwise submitted again: it is in
      flight if the driver accepts it, and if not it goes to the end of the queue or is
      given up. No other task is touched. */
  lemma CompletionReplaces(s: Ctx, t: nat, gone: bool, rc: int)
    requires Enabled(s, Done(t, gone, rc))
    ensures var r := Step(s, Done(t, gone, rc));
      && (r.places[t].Flying? <==> !s.draining && !gone && rc == 0)
      && (r.places[t].Waiting? <==> !s.draining && !gone && rc != 0 && s.continueOnError)
      && r.places == s.places[t := r.places[t]]
      && r.queued == s.queued + (if r.places[t].Waiting? then [t] else [])
      && r.completed == s.completed + 1
      && r.submitted == s.submitted + (if r.places[t].Flying? then 1 else 0)
  {
  }

  /** Draining begins when the time is over, the device or its queue pair is lost, or the
      budget is used up, and for no other reason. */
  lemma StepDrainsIff(s: Ctx, e: Event)
    requires Conserved(s, []) && Budgeted(s) && Enabled(s, e)
    ensures var r := Step(s, e);
      r.draining <==>
        s.draining || e.Drain? || e.Disconnected? || (e.Done? && e.gone) || (s.numberIos != 0 && r.submitted == s.numberIos)
  {
    hide Count, Resubmit, Listed;
    StepKeeps(s, e);
    if e.Retry? && s.continueOnError && !s.draining { ResubmitDrains(s.(queued := []), s.queued, e.rcs); }
  }

  lemma {:induction false} ResubmitDrains(s: Ctx, swap: seq<nat>, rcs: seq<int>)
    requires |rcs| == |swap| && forall j :: 0 <= j < |swap| ==> swap[j] < |s.places|
    requires s.draining ==> s.numberIos != 0 && s.submitted >= s.numberIos
    ensures var r := Resubmit(s, swap, rcs); r.draining ==> r.numberIos != 0 && r.submitted >= r.numberIos
    decreases |swap|
  {
    if swap != [] {
      var t := if s.draining then s.(queued := s.queued + [swap[0]]) else SubmitSingle(s, swap[0], rcs[0]);
      ResubmitDrains(t, swap[1..], rcs[1..]);
    }
  }

  /** The retry of a queue: no other task is touched, a task of it is in flight only if it
      was accepted, and without a budget exactly if it was. */
  ghost predicate Retried(s: Ctx, r: Ctx, swap: seq<nat>, rcs: seq<int>)
    requires |rcs| == |swap| && |r.places| == |s.places| && forall j :: 0 <= j < |swap| ==> swap[j] < |s.places|
  {
    && (forall t: nat :: t < |s.places| && t !in swap ==> r.places[t] == s.places[t])
    && (forall j :: 0 <= j < |swap| ==> r.places[swap[j]].Flying? || r.places[swap[j]].Waiting?)
    && (forall j :: 0 <= j < |swap| && r.places[swap[j]].Flying? ==> rcs[j] == 0)
    && (s.numberIos == 0 && !s.draining ==> forall j :: 0 <= j < |swap| ==> (r.places[swap[j]].Flying? <==> rcs[j] == 0))
  }

  lemma {:induction false} ResubmitPlaces(s: Ctx, swap: seq<nat>, rcs: seq<int>)
    requires |rcs| == |swap| && s.continueOnError && Listed(s.places, swap)
    ensures Retried(s, Resubmit(s, swap, rcs), swap, rcs)
    decreases |swap|
  {
    hide IfWaiting, SubmitSingle;
    if swap != [] {
      var head, rest, t := swap[0], swap[1..], ResubmitFirst(s, swap[0], rcs[0]);
      FirstResubmitted(s, head, rcs[0]);
      RestListed(s.places, swap, t.places[head]);
      ResubmitPlaces(t, rest, rcs[1..]);
      RetriedFirst(s, t, Resubmit(t, rest, rcs[1..]), swap, rcs);
    }
  }

  /** The first round and those that follow. */
  lemma RetriedFirst(s: Ctx, t: Ctx, r: Ctx, swap: seq<nat>, rcs: seq<int>)
    requires |rcs| == |swap| > 0 && Listed(s.places, swap) && |r.places| == |s.places| == |t.places|
    requires t.places == s.places[swap[0] := t.places[swap[0]]] && t.numberIos == s.numberIos
    requires t.places[swap[0]].Flying? || t.places[swap[0]].Waiting?
    requires t.places[swap[0]].Flying? <==> !s.draining && rcs[0] == 0
    requires s.numberIos == 0 ==> t.draining == s.draining
    requires Retried(t, r, swap[1..], rcs[1..])
    ensures Retried(s, r, swap, rcs)
  {
    var head, rest := swap[0], swap[1..];
    assert head !in rest;
    assert r.places[head] == t.places[head];
    forall u: nat | u < |s.places| && u !in swap ensures r.places[u] == s.places[u] { assert u !in rest; }
    forall j | 0 <= j < |swap|
      ensures r.places[swap[j]].Flying? || r.places[swap[j]].Waiting?
      ensures r.places[swap[j]].Flying? ==> rcs[j] == 0
      ensures s.numberIos == 0 && !s.draining ==> (r.places[swap[j]].Flying? <==> rcs[j] == 0)
    {
      if j > 0 { assert swap[j] == rest[j - 1] && rcs[j] == rcs[1..][j - 1]; }
    }
  }

  /** What is refused, or not reached before draining begins, stays queued in its order. */
  lemma {:induction false} ResubmitOrder(s: Ctx, swap: seq<nat>, rcs: seq<int>)
    requires |rcs| == |swap| && s.continueOnError && Listed(s.places, swap)
    ensures var r := Resubmit(s, swap, rcs); r.queued == s.queued + Keep(swap, r.places)
    decreases |swap|
  {
    hide IfWaiting, SubmitSingle;
    if swap != [] {
      var head, rest, t := swap[0], swap[1..], ResubmitFirst(s, swap[0], rcs[0]);
      FirstResubmitted(s, head, rcs[0]);
      RestListed(s.places, swap, t.places[head]);
      ResubmitPlaces(t, rest, rcs[1..]);
      ResubmitOrder(t, rest, rcs[1..]);
      var r := Resubmit(t, rest, rcs[1..]);
      assert r.places[head] == t.places[head];
      SameWaiting(head, t.places, r.places);
      assert (s.queued + IfWaiting(head, r.places)) + Keep(rest, r.places) == s.queued + Keep(swap, r.places);
    }
  }

  lemma SameWaiting(t: nat, ps: seq<Place>, qs: seq<Place>)
    requires t < |ps| && t < |qs| && ps[t] == qs[t]
    ensures IfWaiting(t, ps) == IfWaiting(t, qs)
  {
  }

  lemma RestListed(ps: seq<Place>, swap: seq<nat>, p: Place)
    requires Listed(ps, swap) && swap != []
    ensures swap[0] !in swap[1..] && Listed(ps[swap[0] := p], swap[1..])
  {
  }

  /** The first round of the loop. */
  function ResubmitFirst(s: Ctx, t: nat, rc: int): Ctx
    requires t < |s.places|
  {
    if s.draining then s.(queued := s.queued + [t]) else SubmitSingle(s, t, rc)
  }

  lemma FirstResubmitted(s: Ctx, t: nat, rc: int)
    requires t < |s.places| && s.places[t].Waiting? && s.continueOnError
    ensures var r := ResubmitFirst(s, t, rc);
      && |r.places| == |s.places| && r.places == s.places[t := r.places[t]] && r.continueOnError
      && r.queued == s.queued + IfWaiting(t, r.places)
      && (r.places[t].Flying? || r.places[t].Waiting?) && (r.places[t].Flying? <==> !s.draining && rc == 0)
      && r.numberIos == s.numberIos && (s.numberIos == 0 ==> r.draining == s.draining)
  {
  }

  /** The same for the step of the main loop. */
  lemma RetryKeepsOrder(s: Ctx, rcs: seq<int>)
    requires Conserved(s, []) && Enabled(s, Retry(rcs)) && s.continueOnError && !s.draining
    ensures var r := Step(s, Retry(rcs));
      && r.queued == Keep(s.queued, r.places)
      && Retried(s, r, s.queued, rcs)
  {
    hide Count, Resubmit, Keep;
    assert s.queued + [] == s.queued;
    ResubmitPlaces(s.(queued := []), s.queued, rcs);
    ResubmitOrder(s.(queued := []), s.queued, rcs);
  }

  /** A retry that is accepted throughout and stays within the budget empties the queue,
      and every task of it is in flight again. */
  lemma RetryEmptiesQueue(s: Ctx, rcs: seq<int>)
    requires Conserved(s, []) && Enabled(s, Retry(rcs)) && s.continueOnError && !s.draining
    requires forall j :: 0 <= j < |rcs| ==> rcs[j] == 0
    requires s.numberIos == 0 || s.submitted + |s.queued| <= s.numberIos
    ensures var r := Step(s, Retry(rcs));
      r.queued == [] && r.depth == s.depth + |s.queued| && r.submitted == s.submitted + |s.queued| && r.completed == s.completed
  {
    hide Count, Listed;
    ResubmitAccepted(s.(queued := []), s.queued, rcs);
  }

  lemma {:induction false} ResubmitAccepted(s: Ctx, swap: seq<nat>, rcs: seq<int>)
    requires |rcs| == |swap| && (forall j :: 0 <= j < |swap| ==> swap[j] < |s.places|) && (swap != [] ==> !s.draining)
    requires forall j :: 0 <= j < |rcs| ==> rcs[j] == 0
    requires s.numberIos == 0 || s.submitted + |swap| <= s.numberIos
    ensures var r := Resubmit(s, swap, rcs);
      && r.queued == s.queued && r.depth == s.depth + |swap| && r.submitted == s.submitted + |swap|
      && r.completed == s.completed
    decreases |swap|
  {
    if swap != [] { ResubmitAccepted(SubmitSingle(s, swap[0], rcs[0]), swap[1..], rcs[1..]); }
  }

  function UpTo(n: nat): (r: seq<nat>)
    ensures |r| == n
  {
    seq(n, i => i)
  }

  lemma {:induction false} KeepSame(list: seq<nat>, ps: seq<Place>, qs: seq<Place>)
    requires forall j :: 0 <= j < |list| ==> list[j] < |ps| && list[j] < |qs| && ps[list[j]] == qs[list[j]]
    ensures Keep(list, ps) == Keep(list, qs)
  {
    if list != [] { KeepSame(list[1..], ps, qs); }
  }

  lemma {:induction false} KeepLast(list: seq<nat>, t: nat, ps: seq<Place>)
    requires t < |ps| && forall j :: 0 <= j < |list| ==> list[j] < |ps|
    ensures Keep(list + [t], ps) == Keep(list, ps) + IfWaiting(t, ps)
  {
    hide IfWaiting;
    if list == [] {
      assert list + [t] == [t] && [t][1..] == [];
      assert Keep([t], ps) == IfWaiting(t, ps) + [];
    } else {
      var a, k, b := IfWaiting(list[0], ps), Keep(list[1..], ps), IfWaiting(t, ps);
      KeepLast(list[1..], t, ps);
      assert (list + [t])[1..] == list[1..] + [t];
      assert (a + k) + b == a + (k + b);
    }
  }

  /** After the first loop each task is where the driver's answer has put it, and the
      queue holds the refused ones in the order of their allocation. */
  lemma {:induction false} InitialOutcome(numberIos: nat, continueOnError: bool, rcs: seq<int>)
    ensures var r := SubmitInitial(Fresh(numberIos, continueOnError), rcs);
      && |r.places| == |rcs|
      && (forall t :: 0 <= t < |rcs| ==>
            r.places[t] == if rcs[t] == 0 then Flying else if continueOnError then Waiting else Freed)
      && r.queued == Keep(UpTo(|rcs|), r.places)
  {
    hide IfWaiting, SubmitSingle, Count, Conserved;
    if rcs != [] {
      var n := |rcs| - 1;
      InitialKeeps(numberIos, continueOnError, rcs[..n]);
      InitialOutcome(numberIos, continueOnError, rcs[..n]);
      var t := SubmitInitial(Fresh(numberIos, continueOnError), rcs[..n]);
      var r := SubmitInitial(Fresh(numberIos, continueOnError), rcs);
      FirstSubmitted(t.(places := t.places + [Waiting]), n, rcs[n]);
      assert UpTo(n + 1) == UpTo(n) + [n];
      KeepSame(UpTo(n), t.places, r.places);
      KeepLast(UpTo(n), n, r.places);
    }
  }

  lemma FirstSubmitted(s: Ctx, t: nat, rc: int)
    requires t < |s.places| && s.places[t].Waiting?
    ensures var r := SubmitSingle(s, t, rc);
      && r.places == s.places[t := if rc == 0 then Flying else if s.continueOnError then Waiting else Freed]
      && r.queued == s.queued + IfWaiting(t, r.places)
  {
  }

  /** Without draining no task is given up when errors are to be survived, and none is
      queued when they are not. */
  ghost predicate Surviving(s: Ctx) {
    && (s.continueOnError && !s.draining ==> Count(s.places, Freed) == 0)
    && (!s.continueOnError ==> s.queued == [])
  }

  lemma SubmitSurvives(s: Ctx, t: nat, rc: int)
    requires t < |s.places| && s.places[t].Waiting? && Surviving(s)
    ensures Surviving(SubmitSingle(s, t, rc)) && SubmitSingle(s, t, rc).continueOnError == s.continueOnError
  {
    hide Count;
    CountMove(s.places, t, Flying);
  }

  lemma {:induction false} ResubmitSurvives(s: Ctx, swap: seq<nat>, rcs: seq<int>)
    requires |rcs| == |swap| && Listed(s.places, swap) && Surviving(s) && s.continueOnError
    ensures var r := Resubmit(s, swap, rcs); Surviving(r) && r.continueOnError
    decreases |swap|
  {
    hide Count;
    if swap != [] {
      var t := if s.draining then s.(queued := s.queued + [swap[0]]) else SubmitSingle(s, swap[0], rcs[0]);
      if !s.draining { SubmitSurvives(s, swap[0], rcs[0]); }
      assert swap[0] !in swap[1..] && t.places == s.places[swap[0] := t.places[swap[0]]];
      ResubmitSurvives(t, swap[1..], rcs[1..]);
    }
  }

  lemma StepSurvives(s: Ctx, e: Event)
    requires Conserved(s, []) && Enabled(s, e) && Surviving(s)
    ensures Surviving(Step(s, e)) && Step(s, e).continueOnError == s.continueOnError
  {
    hide Count, Resubmit;
    match e
    case Retry(rcs) =>
      if s.continueOnError && !s.draining {
        assert s.queued + [] == s.queued;
        ResubmitSurvives(s.(queued := []), s.queued, rcs);
      }
    case Done(task, gone, rc) =>
      CompletionReplaces(s, task, gone, rc);
      CountMove(s.places, task, Step(s, e).places[task]);
    case Disconnected =>
    case Drain =>
  }

  lemma {:induction false} RunSurvives(s: Ctx, events: seq<Event>)
    requires Conserved(s, []) && CanRun(s, events) && Surviving(s)
    ensures Surviving(Run(s, events)) && Run(s, events).continueOnError == s.continueOnError
    decreases |events|
  {
    hide Conserved, Step, Enabled, Surviving, Budgeted;
    if events != [] {
      StepKeeps(s, events[0]);
      StepSurvives(s, events[0]);
      RunSurvives(Step(s, events[0]), events[1..]);
    }
  }

  lemma {:induction false} NoneFreed(ps: seq<Place>)
    requires forall t :: 0 <= t < |ps| ==> !ps[t].Freed?
    ensures Count(ps, Freed) == 0
  {
    if ps != [] { NoneFreed(ps[..|ps| - 1]); }
  }

  lemma InitialSurvives(numberIos: nat, continueOnError: bool, rcs: seq<int>)
    ensures Surviving(SubmitInitial(Fresh(numberIos, continueOnError), rcs))
  {
    hide Count, SubmitInitial, Keep, Fresh;
    InitialKeeps(numberIos, continueOnError, rcs);
    InitialOutcome(numberIos, continueOnError, rcs);
    var r := SubmitInitial(Fresh(numberIos, continueOnError), rcs);
    if continueOnError { NoneFreed(r.places); } else { KeepNone(UpTo(|rcs|), r.places); }
  }

  lemma {:induction false} KeepNone(list: seq<nat>, ps: seq<Place>)
    requires forall j :: 0 <= j < |list| ==> list[j] < |ps| && !ps[list[j]].Waiting?
    ensures Keep(list, ps) == []
  {
    if list != [] { KeepNone(list[1..], ps); }
  }

  /** No queue slot is lost before draining, in every state of every run and whatever the
      driver answers: with `continueOnError` every task is in flight or queued, and
      without it nothing is queued. */
  lemma NoTaskIsLost(numberIos: nat, continueOnError: bool, rcs: seq<int>, events: seq<Event>)
    requires CanRun(SubmitInitial(Fresh(numberIos, continueOnError), rcs), events)
    ensures var r := Run(SubmitInitial(Fresh(numberIos, continueOnError), rcs), events);
      && (continueOnError && !r.draining ==> Count(r.places, Freed) == 0 && r.depth + |r.queued| == |rcs|)
      && (!continueOnError ==> r.queued == [])
  {
    hide Count, CanRun, Run, SubmitInitial, Listed, Fresh;
    InitialKeeps(numberIos, continueOnError, rcs);
    InitialSurvives(numberIos, continueOnError, rcs);
    RunSurvives(SubmitInitial(Fresh(numberIos, continueOnError), rcs), events);
    TasksAreConserved(numberIos, continueOnError, rcs, events);
  }

  /** The driver accepts whatever the event submits. */
  predicate Accepted(e: Event) {
    match e
    case Retry(rcs) => forall j :: 0 <= j < |rcs| ==> rcs[j] == 0
    case Done(_, _, rc) => rc == 0
    case _ => true
  }

  /** Every task is in flight. */
  ghost predicate Full(s: Ctx) {
    s.queued == [] && forall t :: 0 <= t < |s.places| ==> s.places[t].Flying?
  }

  lemma {:induction false} RunStaysFull(s: Ctx, events: seq<Event>)
    requires Conserved(s, []) && Full(s) && CanRun(s, events) && !Run(s, events).draining
    requires forall k :: 0 <= k < |events| ==> Accepted(events[k])
    ensures Full(Run(s, events))
    decreases |events|
  {
    hide Conserved, Budgeted;
    if events != [] {
      var e, t := events[0], Step(s, events[0]);
      StepKeeps(s, e);
      RunKeeps(t, events[1..]);
      if e.Done? { CompletionReplaces(s, e.task, e.gone, e.rc); }
      assert Full(t);
      RunStaysFull(t, events[1..]);
    }
  }

  lemma {:induction false} FullCount(ps: seq<Place>)
    requires forall t :: 0 <= t < |ps| ==> ps[t].Flying?
    ensures Count(ps, Flying) == |ps|
  {
    if ps != [] { FullCount(ps[..|ps| - 1]); }
  }

  /** The purpose of the loop: as long as nothing drains and the driver accepts what it is
      given, every completion is replaced, so that the queue depth stays what was asked
      for and what was submitted is that much ahead of what has completed. */
  lemma DepthIsKept(numberIos: nat, continueOnError: bool, n: nat, events: seq<Event>)
    requires CanRun(SubmitInitial(Fresh(numberIos, continueOnError), Accepts(n)), events)
    requires forall k :: 0 <= k < |events| ==> Accepted(events[k])
    ensures var r := Run(SubmitInitial(Fresh(numberIos, continueOnError), Accepts(n)), events);
      !r.draining ==>
        r.depth == n && r.queued == [] && Count(r.places, Freed) == 0 && r.submitted == n + r.completed
  {
    hide Count, CanRun, Run, SubmitInitial, Listed, Fresh;
    var s := SubmitInitial(Fresh(numberIos, continueOnError), Accepts(n));
    InitialKeeps(numberIos, continueOnError, Accepts(n));
    InitialOutcome(numberIos, continueOnError, Accepts(n));
    KeepNone(UpTo(n), s.places);
    TasksAreConserved(numberIos, continueOnError, Accepts(n), events);
    var r := Run(s, events);
    if !r.draining {
      RunStaysFull(s, events);
      RunKeeps(s, events);
      FullCount(r.places);
    }
  }

  function Accepts(n: nat): seq<int> {
    seq(n, _ => 0)
  }

  /** When the driver accepts everything the first loop submits one I/O per task. */
  lemma {:induction false} InitialAccepted(numberIos: nat, continueOnError: bool, n: nat)
    ensures var r := SubmitInitial(Fresh(numberIos, continueOnError), Accepts(n));
      r.submitted == n && (r.tripped <==> 0 < numberIos < n)
  {
    if n > 0 {
      assert Accepts(n)[..n - 1] == Accepts(n - 1);
      InitialAccepted(numberIos, continueOnError, n - 1);
      InitialKeeps(numberIos, continueOnError, Accepts(n - 1));
    }
  }

  /** The condition on the budget is exact: the first loop keeps the assertion for
      every answer of the driver if and only if there is no budget or it allows the
      whole queue depth. */
  lemma BudgetIff(numberIos: nat, continueOnError: bool, n: nat)
    ensures (forall rcs: seq<int> :: |rcs| == n ==> !SubmitInitial(Fresh(numberIos, continueOnError), rcs).tripped)
            <==> numberIos == 0 || n <= numberIos
  {
    if numberIos == 0 || n <= numberIos {
      forall rcs: seq<int> | |rcs| == n ensures !SubmitInitial(Fresh(numberIos, continueOnError), rcs).tripped {
        InitialKeeps(numberIos, continueOnError, rcs);
      }
    } else {
      InitialAccepted(numberIos, continueOnError, n);
      assert |Accepts(n)| == n;
    }
  }

  /** `allocate_ns_worker`: the budget of a namespace. The check of the options
      compares only the first form with the queue depth. */
  function Budget(numberIos: nat, percent: nat, sizeInIos: nat): nat {
    if percent > 0 then sizeInIos * percent / 100 else numberIos
  }

  predicate OptionsAccepted(numberIos: nat, depth: nat) {
    !(numberIos != 0 && numberIos < depth)
  }

  /** With a budget given in percent of a small namespace the accepted options do not
      keep the assertion. */
  lemma PercentBudgetTrips()
    ensures OptionsAccepted(0, 32)
    ensures SubmitInitial(Fresh(Budget(0, 1, 1000), false), Accepts(32)).tripped
  {
    InitialAccepted(10, false, 32);
  }

  // ------------------------------------------------------------------- draining

  /** One call of `check_io`: some completions are reported. */
  function CheckIo(s: Ctx, events: seq<Event>): Ctx
    decreases |events|
  {
    if events == [] || !events[0].Done? || !Enabled(s, events[0]) then s else CheckIo(Step(s, events[0]), events[1..])
  }

  /** It handles every completion that is reported to it. */
  lemma {:induction false} CheckIoIsRun(s: Ctx, events: seq<Event>)
    requires CanRun(s, events) && forall k :: 0 <= k < |events| ==> events[k].Done?
    ensures CheckIo(s, events) == Run(s, events)
    decreases |events|
  {
    hide Step, Enabled;
    if events != [] { CheckIoIsRun(Step(s, events[0]), events[1..]); }
  }

  lemma {:induction false} CheckKeeps(s: Ctx, events: seq<Event>)
    requires Conserved(s, [])
    ensures var r := CheckIo(s, events);
      Conserved(r, []) && (s.draining ==> r.draining && r.submitted == s.submitted)
    decreases |events|
  {
    hide Conserved, Step, Enabled, Budgeted;
    if events != [] && events[0].Done? && Enabled(s, events[0]) {
      StepKeeps(s, events[0]);
      CheckKeeps(Step(s, events[0]), events[1..]);
    }
  }

  /** A context after one round of draining. */
  function Drained(s: Ctx, events: seq<Event>): Ctx {
    var t := s.(draining := true);
    if t.depth > 0 then CheckIo(t, events) else t
  }

  lemma DrainedKeeps(s: Ctx, events: seq<Event>)
    requires Conserved(s, [])
    ensures var r := Drained(s, events);
      Conserved(r, []) && r.draining && r.submitted == s.submitted && r.depth >= 0
  {
    hide Count, Listed;
    var t := s.(draining := true);
    CheckKeeps(t, events);
    CountNonnegative(Drained(s, events));
  }

  /** One round over all namespaces of a worker: the number of those that are not done. */
  method DrainRound(ctxs: seq<Ctx>, round: seq<seq<Event>>) returns (r: seq<Ctx>, unfinished: nat)
    requires |round| == |ctxs| && forall i :: 0 <= i < |ctxs| ==> Conserved(ctxs[i], [])
    ensures |r| == |ctxs| && forall i :: 0 <= i < |r| ==> r[i] == Drained(ctxs[i], round[i])
    ensures unfinished > 0 ==> exists i :: 0 <= i < |r| && r[i].depth > 0
    ensures unfinished == 0 ==> forall i :: 0 <= i < |r| ==> r[i].depth == 0
  {
    hide CheckIo, Conserved;
    r, unfinished := [], 0;
    for i := 0 to |ctxs|
      invariant |r| == i && forall j :: 0 <= j < i ==> r[j] == Drained(ctxs[j], round[j])
      invariant unfinished > 0 ==> exists j :: 0 <= j < i && r[j].depth > 0
      invariant unfinished == 0 ==> forall j :: 0 <= j < i ==> r[j].depth == 0
    {
      DrainedKeeps(ctxs[i], round[i]);
      var s := ctxs[i].(draining := true);
      ghost var before := r;
      if s.depth > 0 {
        s := CheckIo(s, round[i]);
        if s.depth > 0 { unfinished := unfinished + 1; }
      }
      r := r + [s];
      assert r[i].depth == s.depth && forall j :: 0 <= j < i ==> r[j] == before[j];
    }
  }

  /** Context `i` after `k` rounds. */
  function After(s: Ctx, rounds: seq<seq<seq<Event>>>, i: nat, k: nat): Ctx
    requires k <= |rounds| && forall j :: 0 <= j < |rounds| ==> i < |rounds[j]|
  {
    if k == 0 then s else Drained(After(s, rounds, i, k - 1), rounds[k - 1][i])
  }

  /** The drain loop, with the completions that the driver reports in each round. It ends
      by itself exactly when every namespace has depth zero, and then everything submitted
      has completed. */
  method DrainLoop(ctxs: seq<Ctx>, rounds: seq<seq<seq<Event>>>) returns (r: seq<Ctx>, finished: bool, k: nat)
    requires forall i :: 0 <= i < |ctxs| ==> Conserved(ctxs[i], [])
    requires forall k :: 0 <= k < |rounds| ==> |rounds[k]| == |ctxs|
    ensures |r| == |ctxs| && k <= |rounds| && (!finished ==> k == |rounds|)
    ensures forall i :: 0 <= i < |r| ==> r[i] == After(ctxs[i], rounds, i, k)
    ensures k > 0 && !finished ==> exists i :: 0 <= i < |r| && r[i].depth > 0
    ensures finished ==> forall i :: 0 <= i < |r| ==> r[i].draining && r[i].depth == 0 && r[i].submitted == r[i].completed
    ensures forall i :: 0 <= i < |r| ==> Conserved(r[i], []) && r[i].submitted == ctxs[i].submitted
  {
    hide Count, Listed, Drained;
    r, finished, k := ctxs, false, 0;
    while k < |rounds| && !finished
      invariant |r| == |ctxs| && k <= |rounds|
      invariant forall i :: 0 <= i < |r| ==> r[i] == After(ctxs[i], rounds, i, k)
      invariant forall i :: 0 <= i < |r| ==> Conserved(r[i], []) && r[i].submitted == ctxs[i].submitted
      invariant k > 0 && !finished ==> exists i :: 0 <= i < |r| && r[i].depth > 0
      invariant finished ==> forall i :: 0 <= i < |r| ==> r[i].draining && r[i].depth == 0
      decreases |rounds| - k, !finished
    {
      ghost var before := r;
      var unfinished;
      r, unfinished := DrainRound(r, rounds[k]);
      forall i | 0 <= i < |r| ensures Conserved(r[i], []) && r[i].draining && r[i].submitted == ctxs[i].submitted {
        DrainedKeeps(before[i], rounds[k][i]);
      }
      finished := unfinished == 0;
      k := k + 1;
    }
  }

  lemma CountNonnegative(s: Ctx)
    requires Conserved(s, [])
    ensures s.depth >= 0
  {
  }

  // ------------------------------------------------------- the context in place

  /** The counters and the queue as the callbacks update them. The assertion of
      `submit_single_io` is part of the code. */
  class NsWorkerCtx {
    const numberIos: nat
    const continueOnError: bool
    ghost var places: seq<Place>
    var queued: seq<nat>
    var depth: int
    var submitted: nat
    var completed: nat
    var draining: bool

    ghost function View(): Ctx
      reads this
    {
      Ctx(places, queued, depth, submitted, completed, draining, numberIos, continueOnError, false)
    }

    constructor (numberIos: nat, continueOnError: bool)
      ensures this.numberIos == numberIos && this.continueOnError == continueOnError
      ensures View() == Fresh(numberIos, continueOnError)
    {
      this.numberIos, this.continueOnError := numberIos, continueOnError;
      places, queued, depth, submitted, completed, draining := [], [], 0, 0, 0, false;
    }

    method SubmitSingleIo(t: nat, rc: int)
      requires t < |places| && !draining
      modifies this
      ensures View() == SubmitSingle(old(View()), t, rc)
    {
      assert !draining;
      if rc != 0 {
        if continueOnError {
          queued := queued + [t];
        } else {
          places := places[t := Freed];
        }
      } else {
        places := places[t := Flying];
        depth := depth + 1;
        submitted := submitted + 1;
      }
      if numberIos != 0 && submitted >= numberIos { draining := true; }
    }

    method CompleteTask(t: nat, rc: int)
      requires t < |places|
      modifies this
      ensures View() == TaskComplete(old(View()), t, rc)
    {
      places := places[t := Waiting];
      depth := depth - 1;
      completed := completed + 1;
      if draining {
        places := places[t := Freed];
      } else {
        SubmitSingleIo(t, rc);
      }
    }

    /** `submit_io` on a fresh context. */
    method SubmitIo(rcs: seq<int>)
      requires View() == Fresh(numberIos, continueOnError) && (numberIos == 0 || |rcs| <= numberIos)
      modifies this
      ensures View() == SubmitInitial(old(View()), rcs)
    {
      hide SubmitSingle, Count;
      var n := 0;
      while n < |rcs|
        invariant n <= |rcs| && View() == SubmitInitial(Fresh(numberIos, continueOnError), rcs[..n])
      {
        InitialKeeps(numberIos, continueOnError, rcs[..n]);
        assert rcs[..n + 1][..n] == rcs[..n];
        places := places + [Waiting];
        SubmitSingleIo(n, rcs[n]);
        n := n + 1;
      }
      assert rcs[..n] == rcs;
    }

    /** The queued tasks are swapped out and submitted again, until draining begins. */
    method RetryQueued(rcs: seq<int>)
      requires |rcs| == |queued| && Enabled(View(), Retry(rcs))
      modifies this
      ensures View() == Step(old(View()), Retry(rcs))
    {
      hide SubmitSingle;
      if continueOnError && !draining {
        var swap: seq<nat>, left: seq<int> := queued, rcs;
        queued := [];
        ghost var start := View();
        while swap != []
          invariant |left| == |swap| && |places| == |start.places|
          invariant forall j :: 0 <= j < |swap| ==> swap[j] < |places|
          invariant Resubmit(View(), swap, left) == Resubmit(start, old(queued), rcs)
          decreases |swap|
        {
          var task, rc := swap[0], left[0];
          swap, left := swap[1..], left[1..];
          if draining {
            queued := queued + [task];
          } else {
            SubmitSingleIo(task, rc);
          }
        }
      }
    }
  }
}
