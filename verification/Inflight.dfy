/** In-flight counters under many concurrent requests (internal/gateway/chat.go).  Each request counts its
    sends up and down one after the other; the requests interleave freely, and upstream APIs come and go. */
module Inflight {
  import opened RetryLoop

  /** Sends finished so far, and whether the next one is under way. */
  datatype Progress = Progress(finished: nat, open: bool)

  /** `plans[r]` lists the upstream APIs that request r sends to, in order. */
  datatype System = System(inflight: map<string, int>, plans: seq<seq<string>>, progress: seq<Progress>)

  datatype Event = Arrive(plan: seq<string>) | Move(request: nat) | Store(id: string) | Drop(id: string)

  predicate WellFormed(s: System) {
    && |s.progress| == |s.plans|
    && forall r :: 0 <= r < |s.plans| ==> IsProgress(s.progress[r], s.plans[r])
  }

  predicate IsProgress(p: Progress, plan: seq<string>) {
    p.finished <= |plan| && (p.open ==> p.finished < |plan|)
  }

  predicate OpenOn(p: Progress, plan: seq<string>, id: string) {
    p.open && p.finished < |plan| && plan[p.finished] == id
  }

  /** Requests that have a send to this upstream API under way. */
  function OpenCount(progress: seq<Progress>, plans: seq<seq<string>>, id: string): nat
    requires |progress| == |plans|
  {
    if progress == [] then 0
    else
      OpenCount(progress[..|progress| - 1], plans[..|plans| - 1], id)
      + if OpenOn(progress[|progress| - 1], plans[|plans| - 1], id) then 1 else 0
  }

  /** The next step of a request: it counts a send up, or the one under way down. */
  function Moved(s: System, r: nat): System
    requires r < |s.plans| == |s.progress|
  {
    var p, plan := s.progress[r], s.plans[r];
    if p.finished >= |plan| then s
    else if p.open
    then s.(inflight := Adjusted(s.inflight, plan[p.finished], -1),
            progress := s.progress[r := Progress(p.finished + 1, false)])
    else s.(inflight := Adjusted(s.inflight, plan[p.finished], 1),
            progress := s.progress[r := Progress(p.finished, true)])
  }

  /** Ids of stored upstream APIs are new: nothing is under way to them. */
  function Next(s: System, e: Event): System
    requires |s.plans| == |s.progress|
  {
    match e
    case Arrive(plan) => s.(plans := s.plans + [plan], progress := s.progress + [Progress(0, false)])
    case Move(r) => if r < |s.plans| then Moved(s, r) else s
    case Store(id) => if id !in s.inflight && OpenCount(s.progress, s.plans, id) == 0
      then s.(inflight := s.inflight[id := 0]) else s
    case Drop(id) => s.(inflight := s.inflight - {id})
  }

  function Run(s: System, events: seq<Event>): (t: System)
    requires |s.plans| == |s.progress|
    ensures |t.plans| == |t.progress|
  {
    if events == [] then s else Next(Run(s, events[..|events| - 1]), events[|events| - 1])
  }

  /** Every counter is the number of sends under way. */
  ghost predicate Exact(s: System) {
    && WellFormed(s)
    && forall id :: id in s.inflight ==> s.inflight[id] == OpenCount(s.progress, s.plans, id)
  }

  lemma {:induction false} OpenAfterUpdate(progress: seq<Progress>, plans: seq<seq<string>>, r: nat, p: Progress,
      id: string)
    requires |progress| == |plans| && r < |plans|
    ensures OpenCount(progress[r := p], plans, id) ==
            OpenCount(progress, plans, id)
            - (if OpenOn(progress[r], plans[r], id) then 1 else 0) + (if OpenOn(p, plans[r], id) then 1 else 0)
  {
    hide OpenOn;
    var n := |plans| - 1;
    if r == n {
      assert progress[r := p][..n] == progress[..n];
    } else {
      OpenAfterUpdate(progress[..n], plans[..n], r, p, id);
      assert progress[r := p][..n] == progress[..n][r := p];
    }
  }

  lemma {:induction false} OpenIsCounted(progress: seq<Progress>, plans: seq<seq<string>>, r: nat, id: string)
    requires |progress| == |plans| && r < |plans| && OpenOn(progress[r], plans[r], id)
    ensures OpenCount(progress, plans, id) >= 1
  {
    hide OpenOn;
    if r < |plans| - 1 {
      OpenIsCounted(progress[..|plans| - 1], plans[..|plans| - 1], r, id);
    }
  }

  lemma MoveIsExact(s: System, r: nat)
    requires Exact(s) && r < |s.plans|
    ensures Exact(Moved(s, r))
  {
    var p, plan, t := s.progress[r], s.plans[r], Moved(s, r);
    assert IsProgress(p, plan);
    if p.finished < |plan| {
      if p.open {
        OpenIsCounted(s.progress, s.plans, r, plan[p.finished]);
      }
      forall id | id in t.inflight ensures t.inflight[id] == OpenCount(t.progress, t.plans, id) {
        OpenAfterUpdate(s.progress, s.plans, r, t.progress[r], id);
      }
      forall q | 0 <= q < |t.plans| ensures IsProgress(t.progress[q], t.plans[q]) {
        assert IsProgress(s.progress[q], s.plans[q]);
      }
    }
  }

  lemma StepIsExact(s: System, e: Event)
    requires |s.plans| == |s.progress| && Exact(s)
    ensures Exact(Next(s, e))
  {
    var t := Next(s, e);
    match e {
      case Arrive(plan) =>
        assert t.progress[..|s.progress|] == s.progress && t.plans[..|s.plans|] == s.plans;
        forall q | 0 <= q < |t.plans| ensures IsProgress(t.progress[q], t.plans[q]) {
          if q < |s.plans| {
            assert IsProgress(s.progress[q], s.plans[q]);
          }
        }
      case Move(r) =>
        if r < |s.plans| {
          MoveIsExact(s, r);
        }
      case Store(id) => assert WellFormed(t);
      case Drop(id) => assert WellFormed(t);
    }
  }

  /** However requests interleave, every counter is the number of sends under way to its upstream API. */
  lemma {:induction false} RunIsExact(s: System, events: seq<Event>)
    requires |s.plans| == |s.progress| && Exact(s)
    ensures Exact(Run(s, events))
  {
    hide Exact, Next;
    if events != [] {
      RunIsExact(s, events[..|events| - 1]);
      StepIsExact(Run(s, events[..|events| - 1]), events[|events| - 1]);
    }
  }

  predicate AllFinished(s: System) {
    forall r :: 0 <= r < |s.progress| ==> !s.progress[r].open
  }

  lemma {:induction false} NothingOpen(progress: seq<Progress>, plans: seq<seq<string>>, id: string)
    requires |progress| == |plans| && forall r :: 0 <= r < |progress| ==> !progress[r].open
    ensures OpenCount(progress, plans, id) == 0
  {
    if progress != [] {
      NothingOpen(progress[..|progress| - 1], plans[..|plans| - 1], id);
    }
  }

  /** Cutting a count at zero never takes effect, and when no send is under way all counters are zero. */
  lemma CountersSettle(s: System, events: seq<Event>)
    requires |s.plans| == |s.progress| && Exact(s)
    ensures var t := Run(s, events);
            && (AllFinished(t) ==> forall id :: id in t.inflight ==> t.inflight[id] == 0)
            && (forall r, id :: 0 <= r < |t.plans| && OpenOn(t.progress[r], t.plans[r], id) && id in t.inflight ==>
                  t.inflight[id] >= 1)
  {
    RunIsExact(s, events);
    var t := Run(s, events);
    hide Run, OpenOn;
    if AllFinished(t) {
      forall id | id in t.inflight ensures t.inflight[id] == 0 {
        NothingOpen(t.progress, t.plans, id);
      }
    }
    forall r, id | 0 <= r < |t.plans| && OpenOn(t.progress[r], t.plans[r], id) && id in t.inflight
      ensures t.inflight[id] >= 1 {
      OpenIsCounted(t.progress, t.plans, r, id);
    }
  }

  // ---------------------------------------------------------------------------------------------
  // The requests of the retry loop
  // ---------------------------------------------------------------------------------------------

  /** A request with the cursors that its loop goes through to its end. */
  datatype Request = Request(env: Env, candidates: seq<string>, prompt: nat, trail: seq<Cursor>)

  ghost predicate Handled(q: Request) {
    && Chained(q.env, q.candidates, q.prompt, q.trail)
    && After(q.env, q.trail[|q.trail| - 1], q.prompt, q.env.replies(|q.trail| - 1)).Stop?
  }

  function PlansOf(requests: seq<Request>): seq<seq<string>> {
    seq(|requests|, r requires 0 <= r < |requests| => Providers(requests[r].trail))
  }

  /** The plans of the requests that arrive, in order. */
  function Arrivals(events: seq<Event>): seq<seq<string>> {
    if events == [] then []
    else
      var last := events[|events| - 1];
      Arrivals(events[..|events| - 1]) + if last.Arrive? then [last.plan] else []
  }

  lemma {:induction false} PlansArrive(s: System, events: seq<Event>)
    requires |s.plans| == |s.progress|
    ensures Run(s, events).plans == s.plans + Arrivals(events)
  {
    if events != [] {
      PlansArrive(s, events[..|events| - 1]);
    }
  }

  /** Requests handled by the retry loop, interleaved in any way: in every state each of them is on its way along
      its own sends, the one under way goes to the upstream API that its loop has come to, and every counter is the
      number of loops that wait for that upstream API. */
  lemma HandledRequestsAreCounted(inflight: map<string, int>, requests: seq<Request>, events: seq<Event>)
    requires forall id :: id in inflight ==> inflight[id] == 0
    requires forall r :: 0 <= r < |requests| ==> Handled(requests[r])
    requires Arrivals(events) == PlansOf(requests)
    ensures var s := Run(System(inflight, [], []), events);
            && Exact(s) && s.plans == PlansOf(requests)
            && forall r, id :: 0 <= r < |requests| ==>
                 && s.progress[r].finished <= |requests[r].trail|
                 && (OpenOn(s.progress[r], s.plans[r], id)
                     <==> s.progress[r].open && Current(requests[r].trail[s.progress[r].finished]) == id)
  {
    var start := System(inflight, [], []);
    RunIsExact(start, events);
    PlansArrive(start, events);
    var s := Run(start, events);
    WellFormedIs(s);
    hide *;
    assert [] + Arrivals(events) == PlansOf(requests);
    PlansAre(requests);
    forall r, id | 0 <= r < |requests|
      ensures s.progress[r].finished <= |requests[r].trail|
      ensures s.progress[r].open ==> s.progress[r].finished < |requests[r].trail|
      ensures OpenOn(s.progress[r], s.plans[r], id)
              <==> s.progress[r].open && Current(requests[r].trail[s.progress[r].finished]) == id
    {
      PlaceInTrail(s.progress[r], requests[r].trail, id);
    }
  }

  lemma WellFormedIs(s: System)
    requires Exact(s)
    ensures |s.progress| == |s.plans| && forall r :: 0 <= r < |s.plans| ==> IsProgress(s.progress[r], s.plans[r])
  {
  }

  lemma PlansAre(requests: seq<Request>)
    ensures |PlansOf(requests)| == |requests|
    ensures forall r :: 0 <= r < |requests| ==> PlansOf(requests)[r] == Providers(requests[r].trail)
  {
  }

  lemma PlaceInTrail(p: Progress, trail: seq<Cursor>, id: string)
    requires IsProgress(p, Providers(trail))
    ensures p.finished <= |trail| && (p.open ==> p.finished < |trail|)
    ensures OpenOn(p, Providers(trail), id) <==> p.open && Current(trail[p.finished]) == id
  {
  }
}
