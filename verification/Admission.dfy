/** The in-flight cap under concurrency: requests interleave at every access to the shared counter, and a streamed
    request runs on two goroutines after the hand-over. */
module Admission {

  /** Where a request's calling goroutine stands. `Rejecting` has added to the counter and found it over the limit;
      `Spawned` has started the stream goroutine but not yet cleared `releaseOnReturn`. */
  datatype Caller = Arriving | Rejecting | Working | Spawned | HandedOver | Returned

  /** The goroutine of a streamed request. */
  datatype Loop = Unstarted | Running | Ended

  datatype Request = Request(caller: Caller, releaseOnReturn: bool, loop: Loop, admitted: bool, releases: nat)

  const NEW_REQUEST := Request(Arriving, true, Unstarted, false, 0)

  datatype State = State(limit: int, counter: int, requests: map<nat, Request>)

  datatype Action = Arrive | Add | Undo | Spawn | ClearFlag | Return | LoopEnds

  predicate Initial(s: State) {
    s.counter == 0 && s.requests == map[]
  }

  /** The deferred release, and the one at the end of the stream loop. */
  function Release(s: State): int {
    if s.limit > 0 then s.counter - 1 else s.counter
  }

  /** One atomic step of request `id`. A step that the request cannot take changes nothing. */
  function Step(s: State, id: nat, action: Action): State {
    if action.Arrive? then
      if id in s.requests then s else s.(requests := s.requests[id := NEW_REQUEST])
    else if id !in s.requests then s
    else
      var r := s.requests[id];
      match action
      case Add =>
        if r.caller != Arriving then s
        else if s.limit <= 0 then s.(requests := s.requests[id := r.(caller := Working, admitted := true)])
        else if s.counter + 1 > s.limit then
          s.(counter := s.counter + 1, requests := s.requests[id := r.(caller := Rejecting)])
        else s.(counter := s.counter + 1, requests := s.requests[id := r.(caller := Working, admitted := true)])
      case Undo =>
        if r.caller != Rejecting then s
        else s.(counter := s.counter - 1, requests := s.requests[id := r.(caller := Returned)])
      case Spawn =>
        if r.caller != Working then s
        else s.(requests := s.requests[id := r.(caller := Spawned, loop := Running)])
      case ClearFlag =>
        if r.caller != Spawned then s
        else s.(requests := s.requests[id := r.(caller := HandedOver, releaseOnReturn := false)])
      case Return =>
        if r.caller != Working && r.caller != HandedOver then s
        else if r.releaseOnReturn then
          s.(counter := Release(s), requests := s.requests[id := r.(caller := Returned, releases := r.releases + 1)])
        else s.(requests := s.requests[id := r.(caller := Returned)])
      case LoopEnds =>
        if r.loop != Running then s
        else s.(counter := Release(s), requests := s.requests[id := r.(loop := Ended, releases := r.releases + 1)])
  }

  /** A schedule runs one step after the other; every interleaving is some schedule. */
  function Run(s: State, schedule: seq<(nat, Action)>): State {
    if schedule == [] then s
    else
      var before := Run(s, schedule[..|schedule| - 1]);
      var (id, action) := schedule[|schedule| - 1];
      Step(before, id, action)
  }

  // ---- Who holds a slot ----

  /** Admitted and not released: the caller will release, or the stream loop will. */
  predicate Holds(r: Request) {
    r.caller == Working || r.loop == Running
  }

  function Holders(s: State): set<nat> {
    set id | id in s.requests && Holds(s.requests[id])
  }

  function Rejecters(s: State): set<nat> {
    set id | id in s.requests && s.requests[id].caller == Rejecting
  }

  /** What is always true of one request: it has been released once if it was admitted and holds no slot, and not at
      all otherwise. */
  predicate RequestInv(r: Request) {
    && r.releases == (if r.admitted && !Holds(r) then 1 else 0)
    && (r.caller in {Arriving, Rejecting} ==> !r.admitted)
    && (Holds(r) ==> r.admitted)
    && (r.caller in {Arriving, Rejecting, Working} ==> r.loop == Unstarted)
    && (r.caller in {Spawned, HandedOver} ==> r.loop != Unstarted && r.admitted)
    && (r.caller in {Arriving, Rejecting, Working, Spawned} ==> r.releaseOnReturn)
    && (r.caller == HandedOver ==> !r.releaseOnReturn)
  }

  predicate Inv(s: State) {
    && (forall id :: id in s.requests ==> RequestInv(s.requests[id]))
    && (if s.limit > 0 then s.counter == |Holders(s)| + |Rejecters(s)| && |Holders(s)| <= s.limit
        else s.counter == 0 && Rejecters(s) == {})
  }

  lemma SetChange(before: set<nat>, after: set<nat>, id: nat)
    requires forall x :: x != id ==> (x in before <==> x in after)
    ensures |after| == |before| - (if id in before then 1 else 0) + (if id in after then 1 else 0)
  {
    var others := before - {id};
    assert others == after - {id};
    assert id in before ==> before == others + {id};
    assert id in after ==> after == others + {id};
    assert id !in before ==> before == others;
    assert id !in after ==> after == others;
  }

  lemma StepKeepsRequests(s: State, id: nat, action: Action)
    requires forall i :: i in s.requests ==> RequestInv(s.requests[i])
    ensures forall i :: i in Step(s, id, action).requests ==> RequestInv(Step(s, id, action).requests[i])
  {
    var t := Step(s, id, action);
    forall i | i in t.requests
      ensures RequestInv(t.requests[i])
    {
      if i != id {
        assert i in s.requests && t.requests[i] == s.requests[i];
      } else if id in s.requests {
        assert RequestInv(s.requests[id]);
      }
    }
  }

  lemma StepIsLocal(s: State, id: nat, action: Action, other: nat)
    requires other != id
    ensures other in Holders(s) <==> other in Holders(Step(s, id, action))
    ensures other in Rejecters(s) <==> other in Rejecters(Step(s, id, action))
  {
  }

  /** Every step keeps the invariant. */
  lemma StepKeepsInv(s: State, id: nat, action: Action)
    requires Inv(s)
    ensures Inv(Step(s, id, action))
  {
    var t := Step(s, id, action);
    StepKeepsRequests(s, id, action);
    forall other | other != id
      ensures other in Holders(s) <==> other in Holders(t)
      ensures other in Rejecters(s) <==> other in Rejecters(t)
    {
      StepIsLocal(s, id, action, other);
    }
    SetChange(Holders(s), Holders(t), id);
    SetChange(Rejecters(s), Rejecters(t), id);
  }

  /** Main result: in every interleaving the requests in flight never exceed the limit, and the counter is their number
      plus the number of requests in the middle of being rejected. */
  lemma {:induction false} RunKeepsInv(s: State, schedule: seq<(nat, Action)>)
    requires Initial(s)
    ensures Inv(Run(s, schedule)) && Run(s, schedule).limit == s.limit
  {
    if schedule == [] {
      assert Holders(s) == {} && Rejecters(s) == {};
    } else {
      var before := schedule[..|schedule| - 1];
      RunKeepsInv(s, before);
      StepKeepsInv(Run(s, before), schedule[|schedule| - 1].0, schedule[|schedule| - 1].1);
    }
  }

  /** No goroutine of the request will touch the counter again. */
  predicate Done(r: Request) {
    r.caller == Returned && r.loop != Running
  }

  /** At rest the counter is back to zero, and every admission has been released exactly once. */
  lemma AtRest(s: State, schedule: seq<(nat, Action)>)
    requires Initial(s)
    requires forall id :: id in Run(s, schedule).requests ==> Done(Run(s, schedule).requests[id])
    ensures Run(s, schedule).counter == 0
    ensures forall id :: id in Run(s, schedule).requests ==>
              Run(s, schedule).requests[id].releases == if Run(s, schedule).requests[id].admitted then 1 else 0
  {
    RunKeepsInv(s, schedule);
    var t := Run(s, schedule);
    assert Holders(t) == {};
    assert Rejecters(t) == {};
  }

  // ---- Progress ----

  /** Only request `id` differs between the two states. */
  predicate OnlyMoves(s: State, t: State, id: nat) {
    && t.limit == s.limit && t.requests.Keys == s.requests.Keys && id in s.requests
    && forall i :: i in s.requests && i != id ==> t.requests[i] == s.requests[i]
  }

  lemma OthersHoldAsBefore(s: State, t: State, id: nat)
    requires OnlyMoves(s, t, id)
    ensures Holders(t) == if Holds(t.requests[id]) then Holders(s) + {id} else Holders(s) - {id}
  {
    forall i: nat | i != id
      ensures i in Holders(t) <==> i in Holders(s)
    {
    }
  }

  /** What a slot costs the counter. */
  function Slot(limit: int): int {
    if limit > 0 then 1 else 0
  }

  /** A request that arrives is admitted, and from then on holds a slot, exactly when there is no limit or the counter is
      below it. */
  lemma AddAdmitsIff(s: State, schedule: seq<(nat, Action)>, id: nat)
    requires Initial(s)
    requires id in Run(s, schedule).requests && Run(s, schedule).requests[id].caller == Arriving
    ensures var t := Run(s, schedule);
            var u := Step(t, id, Add);
            && OnlyMoves(t, u, id) && u.counter == t.counter + Slot(s.limit)
            && (if s.limit <= 0 || |Holders(t)| + |Rejecters(t)| < s.limit
                then u.requests[id].caller == Working && u.requests[id].admitted && Holders(u) == Holders(t) + {id}
                else u.requests[id].caller == Rejecting && !u.requests[id].admitted && Holders(u) == Holders(t))
  {
    RunKeepsInv(s, schedule);
    var t := Run(s, schedule);
    assert RequestInv(t.requests[id]);
    OthersHoldAsBefore(t, Step(t, id, Add), id);
  }

  /** A rejected request takes back what it added, and is gone. */
  lemma UndoTakesBack(s: State, schedule: seq<(nat, Action)>, id: nat)
    requires Initial(s)
    requires id in Run(s, schedule).requests && Run(s, schedule).requests[id].caller == Rejecting
    ensures var t := Run(s, schedule);
            var u := Step(t, id, Undo);
            && OnlyMoves(t, u, id) && u.counter == t.counter - 1 && Holders(u) == Holders(t)
            && Done(u.requests[id]) && !u.requests[id].admitted && u.requests[id].releases == 0
  {
    RunKeepsInv(s, schedule);
    var t := Run(s, schedule);
    assert RequestInv(t.requests[id]);
    OthersHoldAsBefore(t, Step(t, id, Undo), id);
  }

  /** A request at work that starts its stream keeps its slot: now the stream's goroutine holds it, also once the caller
      has given up its claim. */
  lemma SpawnKeepsTheSlot(s: State, schedule: seq<(nat, Action)>, id: nat)
    requires Initial(s)
    requires id in Run(s, schedule).requests && Run(s, schedule).requests[id].caller == Working
    ensures var t := Run(s, schedule);
            var u := Step(t, id, Spawn);
            var v := Step(u, id, ClearFlag);
            && OnlyMoves(t, u, id) && OnlyMoves(t, v, id)
            && u.counter == t.counter == v.counter && Holders(u) == Holders(t) == Holders(v) && id in Holders(t)
            && u.requests[id].caller == Spawned && v.requests[id].caller == HandedOver
            && u.requests[id].loop == Running == v.requests[id].loop
  {
    RunKeepsInv(s, schedule);
    var t := Run(s, schedule);
    var u := Step(t, id, Spawn);
    assert RequestInv(t.requests[id]);
    OthersHoldAsBefore(t, u, id);
    OthersHoldAsBefore(u, Step(u, id, ClearFlag), id);
  }

  /** A caller that returns while it is at work gives its slot back; one that has handed it over gives back nothing. */
  lemma ReturnReleasesIffOwn(s: State, schedule: seq<(nat, Action)>, id: nat)
    requires Initial(s)
    requires id in Run(s, schedule).requests && Run(s, schedule).requests[id].caller in {Working, HandedOver}
    ensures var t := Run(s, schedule);
            var u := Step(t, id, Return);
            && OnlyMoves(t, u, id) && u.requests[id].caller == Returned
            && (if t.requests[id].caller == Working
                then id in Holders(t) && Holders(u) == Holders(t) - {id} && u.counter == t.counter - Slot(s.limit)
                     && u.requests[id].releases == t.requests[id].releases + 1
                else Holders(u) == Holders(t) && u.counter == t.counter
                     && u.requests[id].releases == t.requests[id].releases)
  {
    RunKeepsInv(s, schedule);
    var t := Run(s, schedule);
    assert RequestInv(t.requests[id]);
    OthersHoldAsBefore(t, Step(t, id, Return), id);
  }

  /** A stream that ends gives its slot back. */
  lemma LoopEndsReleases(s: State, schedule: seq<(nat, Action)>, id: nat)
    requires Initial(s)
    requires id in Run(s, schedule).requests && Run(s, schedule).requests[id].loop == Running
    ensures var t := Run(s, schedule);
            var u := Step(t, id, LoopEnds);
            && OnlyMoves(t, u, id) && u.requests[id].loop == Ended
            && id in Holders(t) && Holders(u) == Holders(t) - {id} && u.counter == t.counter - Slot(s.limit)
            && u.requests[id].releases == t.requests[id].releases + 1
  {
    RunKeepsInv(s, schedule);
    var t := Run(s, schedule);
    assert RequestInv(t.requests[id]);
    OthersHoldAsBefore(t, Step(t, id, LoopEnds), id);
  }

  /** How many steps a request has left at most. */
  function StepsLeft(r: Request): nat {
    (match r.caller
     case Arriving => 5
     case Rejecting => 1
     case Working => 4
     case Spawned => 2
     case HandedOver => 1
     case Returned => 0) + if r.loop == Running then 1 else 0
  }

  /** Every step that does something, arrivals aside, uses up one of its request's steps and touches no other request. */
  lemma StepsRunOut(s: State, id: nat, action: Action)
    requires Inv(s) && action != Arrive && Step(s, id, action) != s
    ensures OnlyMoves(s, Step(s, id, action), id)
    ensures StepsLeft(Step(s, id, action).requests[id]) < StepsLeft(s.requests[id])
  {
  }

  /** The next step of a request that is not done. */
  lemma NextStep(s: State, id: nat) returns (action: Action)
    requires Inv(s) && id in s.requests && !Done(s.requests[id])
    ensures action != Arrive && Step(s, id, action) != s
  {
    var r := s.requests[id];
    assert RequestInv(r);
    action := match r.caller
      case Arriving => Add
      case Rejecting => Undo
      case Spawned => ClearFlag
      case Returned => LoopEnds
      case _ => Return;
    assert Step(s, id, action).requests[id] != r;
  }

  /** As long as a request is not done, some step of it does something. */
  lemma DoneIffNoStepLeft(s: State, schedule: seq<(nat, Action)>, id: nat)
    requires Initial(s)
    requires id in Run(s, schedule).requests
    ensures Done(Run(s, schedule).requests[id]) <==>
            forall action :: action != Arrive ==> Step(Run(s, schedule), id, action) == Run(s, schedule)
  {
    RunKeepsInv(s, schedule);
    var t := Run(s, schedule);
    var r := t.requests[id];
    assert RequestInv(r);
    if !Done(r) {
      var action := NextStep(t, id);
    }
  }

  predicate AllDone(s: State) {
    forall id :: id in s.requests ==> Done(s.requests[id])
  }

  function Unfinished(s: State): set<nat> {
    set id | id in s.requests && !Done(s.requests[id])
  }

  lemma {:induction false} RunCons(s: State, step: (nat, Action), rest: seq<(nat, Action)>)
    ensures Run(s, [step] + rest) == Run(Step(s, step.0, step.1), rest)
  {
    var all := [step] + rest;
    if rest == [] {
      assert all[..0] == [] && all == [step];
    } else {
      RunCons(s, step, rest[..|rest| - 1]);
      assert all[..|all| - 1] == [step] + rest[..|rest| - 1];
    }
  }

  lemma {:induction false} RunAppend(s: State, a: seq<(nat, Action)>, b: seq<(nat, Action)>)
    ensures Run(s, a + b) == Run(Run(s, a), b)
  {
    if b == [] {
      assert a + b == a;
    } else {
      RunAppend(s, a, b[..|b| - 1]);
      assert (a + b)[..|a + b| - 1] == a + b[..|b| - 1];
    }
  }

  /** One request can be taken to its end by steps of its own. */
  lemma {:induction false} Finish(s: State, id: nat) returns (rest: seq<(nat, Action)>)
    requires Inv(s) && id in s.requests
    ensures OnlyMoves(s, Run(s, rest), id) && Inv(Run(s, rest)) && Done(Run(s, rest).requests[id])
    decreases StepsLeft(s.requests[id])
  {
    rest := [];
    if !Done(s.requests[id]) {
      var action := NextStep(s, id);
      StepsRunOut(s, id, action);
      StepKeepsInv(s, id, action);
      rest := Finish(Step(s, id, action), id);
      RunCons(s, (id, action), rest);
      rest := [(id, action)] + rest;
    }
  }

  lemma {:induction false} FinishAll(s: State) returns (rest: seq<(nat, Action)>)
    requires Inv(s)
    ensures AllDone(Run(s, rest)) && Run(s, rest).requests.Keys == s.requests.Keys
    decreases |Unfinished(s)|
  {
    rest := [];
    if id :| id in Unfinished(s) {
      var own := Finish(s, id);
      var t := Run(s, own);
      assert Unfinished(t) == Unfinished(s) - {id};
      var others := FinishAll(t);
      RunAppend(s, own, others);
      rest := own + others;
    } else {
      assert forall i :: i in s.requests && !Done(s.requests[i]) ==> i in Unfinished(s);
    }
  }

  /** Main result on progress: from wherever a schedule has led, the requests that are there can all be brought to an end
      without a new one arriving; then the counter is back to zero and every admission has been released exactly once. */
  lemma EveryRunCanFinish(s: State, schedule: seq<(nat, Action)>)
    requires Initial(s)
    ensures exists rest ::
              var t := Run(s, schedule + rest);
              && AllDone(t) && t.counter == 0 && t.requests.Keys == Run(s, schedule).requests.Keys
              && forall id :: id in t.requests ==> t.requests[id].releases == if t.requests[id].admitted then 1 else 0
  {
    RunKeepsInv(s, schedule);
    var rest := FinishAll(Run(s, schedule));
    RunAppend(s, schedule, rest);
    AtRest(s, schedule + rest);
  }

  // ---- Rejections ----

  /** A request is rejected exactly when the slots held and the rejections in progress already reach the limit. */
  lemma RejectedIff(s: State, schedule: seq<(nat, Action)>, id: nat)
    requires Initial(s)
    requires id in Run(s, schedule).requests && Run(s, schedule).requests[id].caller == Arriving
    ensures var t := Run(s, schedule);
            Step(t, id, Add).requests[id].caller == Rejecting <==>
            s.limit > 0 && |Holders(t)| + |Rejecters(t)| >= s.limit
  {
    RunKeepsInv(s, schedule);
  }

  /** Rejections in progress count against newcomers: with a limit of one, a request can be turned away although nobody
      holds a slot. */
  lemma SpuriousRejection()
    ensures exists schedule ::
              var t := Run(State(1, 0, map[]), schedule);
              Holders(t) == {} && 2 in t.requests && t.requests[2].caller == Rejecting
  {
    var s0 := State(1, 0, map[]);
    var schedule := [(0, Arrive), (1, Arrive), (2, Arrive), (0, Add), (1, Add), (0, Return), (2, Add)];
    ThreeArrive(s0, schedule);
    RunStep(s0, schedule, 3);
    RunStep(s0, schedule, 4);
    RunStep(s0, schedule, 5);
    RunStep(s0, schedule, 6);
    TurnedAway(Run(s0, schedule[..3]));
    assert schedule[..7] == schedule;
  }

  /** The second request is being rejected while the first leaves, and the third still finds the counter taken. */
  lemma TurnedAway(s: State)
    requires s == State(1, 0, map[0 := NEW_REQUEST, 1 := NEW_REQUEST, 2 := NEW_REQUEST])
    ensures var t := Step(Step(Step(Step(s, 0, Add), 1, Add), 0, Return), 2, Add);
            Holders(t) == {} && 2 in t.requests && t.requests[2].caller == Rejecting
  {
    var t := Step(Step(Step(Step(s, 0, Add), 1, Add), 0, Return), 2, Add);
    assert t.requests.Keys == {0, 1, 2};
  }

  lemma ThreeArrive(s: State, schedule: seq<(nat, Action)>)
    requires |schedule| >= 3 && schedule[..3] == [(0, Arrive), (1, Arrive), (2, Arrive)] && s.requests == map[]
    ensures Run(s, schedule[..3]) == s.(requests := map[0 := NEW_REQUEST, 1 := NEW_REQUEST, 2 := NEW_REQUEST])
  {
    RunStep(s, schedule, 0);
    RunStep(s, schedule, 1);
    RunStep(s, schedule, 2);
    assert schedule[..0] == [];
    assert schedule[0] == schedule[..3][0] && schedule[1] == schedule[..3][1] && schedule[2] == schedule[..3][2];
  }

  lemma RunStep(s: State, schedule: seq<(nat, Action)>, n: nat)
    requires n < |schedule|
    ensures Run(s, schedule[..n + 1]) == Step(Run(s, schedule[..n]), schedule[n].0, schedule[n].1)
  {
    assert schedule[..n + 1][..n] == schedule[..n];
  }
}
