/** The token-refresh interceptor of frontend/src/api/axiosInstance.ts.
    Requests and their responses are discrete events: `Call` issues a request,
    `Respond` delivers the response of one request in flight to the response
    interceptor (and, for the reissue POST, to the code awaiting it). A
    request config is identified by its id; a replay sends the same config
    again under the same id. The module-level `isRefreshing` and
    `failedQueue` are the fields of AxiosInstance; `guardReissue` selects
    whether the reissue POST carries `_retry` (false is the code as written). */
module AxiosRefresh {
  import opened Base

  const ReissueUrl: string := "/api/v1/auth/reissue"
  const LoginUrl: string := "/login"

  /** A request config: its id, URL and the `_retry` mark. */
  datatype Request = Request(id: nat, url: string, retry: bool)

  /** How the caller's promise for a request ended. */
  datatype Settlement = Resolved(status: int) | Rejected(status: int)

  /** The refresh in progress: the request whose 401 started it (already
      marked `_retry`) and the id of the reissue POST it awaits. */
  datatype Refresh = Refresh(original: Request, reissueId: nat)

  datatype State = State(
    isRefreshing: bool,
    failedQueue: seq<Request>,
    refresh: Option<Refresh>,
    inFlight: map<nat, Request>,
    sent: seq<Request>,
    settled: seq<(nat, Settlement)>,
    location: Option<string>,
    nextId: nat)

  datatype Event = Call(url: string) | Respond(id: nat, status: int)

  const Init: State := State(false, [], None, map[], [], [], None, 0)

  predicate IsSuccess(status: int)
  {
    200 <= status < 300
  }

  /** Sends a request config: it is in flight and logged as sent. */
  function Send(s: State, r: Request): State
  {
    s.(inFlight := s.inFlight[r.id := r], sent := s.sent + [r])
  }

  /** processQueue(null) on the first n entries: each waiter resolves and its
      `.then` replays its request, in queue order. */
  function ReplayAll(s: State, queue: seq<Request>): State
  {
    if |queue| == 0 then s else Send(ReplayAll(s, queue[..|queue| - 1]), queue[|queue| - 1])
  }

  /** processQueue(error): each waiter is rejected with the same error, in queue order. */
  function RejectAll(s: State, queue: seq<Request>, status: int): State
  {
    if |queue| == 0 then s
    else
      var t := RejectAll(s, queue[..|queue| - 1], status);
      t.(settled := t.settled + [(queue[|queue| - 1].id, Rejected(status))])
  }

  /** The reissue POST succeeded: the original request is replayed, the
      queue is resolved and emptied, and the refresh ends. processQueue(null)
      runs first in the interceptor, but each waiter replays its request from
      a later `.then`, while `axiosInstance(originalRequest)` dispatches at
      once, so the original goes out ahead of the queued requests. */
  function ReissueSucceeded(s: State): State
    requires s.refresh.Some?
  {
    var original := s.refresh.value.original;
    ReplayAll(Send(s, original), s.failedQueue).(failedQueue := [], isRefreshing := false, refresh := None)
  }

  /** The reissue POST failed with `status`: the queue is rejected with that
      error and emptied, the page goes to /login, the original request is
      rejected with the same error, and the refresh ends. */
  function ReissueFailed(s: State, status: int): State
    requires s.refresh.Some?
  {
    var original := s.refresh.value.original;
    var t := RejectAll(s, s.failedQueue, status).(failedQueue := []);
    t.(location := Some(LoginUrl), settled := t.settled + [(original.id, Rejected(status))],
       isRefreshing := false, refresh := None)
  }

  /** Whether a response belongs to the reissue POST being awaited. */
  predicate IsAwaitedReissue(s: State, id: nat)
  {
    s.refresh.Some? && s.refresh.value.reissueId == id
  }

  /** The error branch of the response interceptor for request `r`. */
  function OnRejected(s: State, r: Request, status: int, guardReissue: bool): State
  {
    if status == 401 && !r.retry then
      if s.isRefreshing then
        s.(failedQueue := s.failedQueue + [r])
      else
        var reissue := Request(s.nextId, ReissueUrl, guardReissue);
        Send(s, reissue).(isRefreshing := true, refresh := Some(Refresh(r.(retry := true), reissue.id)),
                          nextId := s.nextId + 1)
    else if IsAwaitedReissue(s, r.id) then
      ReissueFailed(s, status)
    else
      s.(settled := s.settled + [(r.id, Rejected(status))])
  }

  /** One event. A response for a request not in flight changes nothing. */
  function Step(s: State, e: Event, guardReissue: bool): State
  {
    match e
    case Call(url) =>
      Send(s, Request(s.nextId, url, false)).(nextId := s.nextId + 1)
    case Respond(id, status) =>
      if id !in s.inFlight then s
      else
        var r := s.inFlight[id];
        var t := s.(inFlight := s.inFlight - {id});
        if IsSuccess(status) then
          if IsAwaitedReissue(t, id) then ReissueSucceeded(t)
          else t.(settled := t.settled + [(id, Resolved(status))])
        else OnRejected(t, r, status, guardReissue)
  }

  function Run(s: State, events: seq<Event>, guardReissue: bool): State
    decreases |events|
  {
    if |events| == 0 then s else Run(Step(s, events[0], guardReissue), events[1..], guardReissue)
  }

  /** The invariant of reachable states: a refresh is in progress exactly
      while isRefreshing holds, the ids in use are below nextId, each
      in-flight entry is the request of that id, and the original of a
      refresh is not in flight. */
  ghost predicate Inv(s: State)
  {
    (s.isRefreshing <==> s.refresh.Some?) &&
    (forall id :: id in s.inFlight ==> id < s.nextId && s.inFlight[id].id == id) &&
    (s.refresh.Some? ==>
       s.refresh.value.original.id < s.nextId && s.refresh.value.original.id !in s.inFlight &&
       s.refresh.value.reissueId < s.nextId) &&
    (forall i :: 0 <= i < |s.failedQueue| ==> s.failedQueue[i].id < s.nextId)
  }

  lemma InitInv()
    ensures Inv(Init)
  {
  }

  lemma {:induction false} ReplayAllFacts(s: State, queue: seq<Request>)
    ensures ReplayAll(s, queue).isRefreshing == s.isRefreshing && ReplayAll(s, queue).refresh == s.refresh
    ensures ReplayAll(s, queue).failedQueue == s.failedQueue && ReplayAll(s, queue).nextId == s.nextId
    ensures ReplayAll(s, queue).settled == s.settled && ReplayAll(s, queue).location == s.location
    ensures ReplayAll(s, queue).sent == s.sent + queue
    ensures ReplayAll(s, queue).inFlight.Keys == s.inFlight.Keys + set i | 0 <= i < |queue| :: queue[i].id
    ensures forall id :: id in ReplayAll(s, queue).inFlight ==>
              (id in s.inFlight && ReplayAll(s, queue).inFlight[id] == s.inFlight[id]) ||
              exists i :: 0 <= i < |queue| && ReplayAll(s, queue).inFlight[id] == queue[i]
  {
    if |queue| > 0 {
      var init := queue[..|queue| - 1];
      ReplayAllFacts(s, init);
      assert init + [queue[|queue| - 1]] == queue;
      var t := ReplayAll(s, init);
      forall id | id in ReplayAll(s, queue).inFlight
        ensures (id in s.inFlight && ReplayAll(s, queue).inFlight[id] == s.inFlight[id]) ||
                exists i :: 0 <= i < |queue| && ReplayAll(s, queue).inFlight[id] == queue[i]
      {
        if id != queue[|queue| - 1].id {
          assert id in t.inFlight;
          if !(id in s.inFlight && t.inFlight[id] == s.inFlight[id]) {
            var i :| 0 <= i < |init| && t.inFlight[id] == init[i];
            assert queue[i] == init[i];
          }
        }
      }
    }
  }

  lemma {:induction false} RejectAllFacts(s: State, queue: seq<Request>, status: int)
    ensures var t := RejectAll(s, queue, status);
            t.isRefreshing == s.isRefreshing && t.refresh == s.refresh && t.failedQueue == s.failedQueue &&
            t.nextId == s.nextId && t.inFlight == s.inFlight && t.sent == s.sent && t.location == s.location
    ensures |RejectAll(s, queue, status).settled| == |s.settled| + |queue|
    ensures RejectAll(s, queue, status).settled[..|s.settled|] == s.settled
    ensures forall i :: 0 <= i < |queue| ==>
              RejectAll(s, queue, status).settled[|s.settled| + i] == (queue[i].id, Rejected(status))
  {
    if |queue| > 0 {
      var init := queue[..|queue| - 1];
      RejectAllFacts(s, init, status);
      var t := RejectAll(s, init, status);
      assert RejectAll(s, queue, status).settled == t.settled + [(queue[|queue| - 1].id, Rejected(status))];
      forall i | 0 <= i < |queue|
        ensures RejectAll(s, queue, status).settled[|s.settled| + i] == (queue[i].id, Rejected(status))
      {
        if i < |init| {
          assert queue[i] == init[i];
        }
      }
    }
  }

  /** Every event keeps the invariant. */
  lemma StepInv(s: State, e: Event, guardReissue: bool)
    requires Inv(s)
    ensures Inv(Step(s, e, guardReissue))
  {
    match e {
      case Call(url) =>
      case Respond(id, status) =>
        if id in s.inFlight {
          var r := s.inFlight[id];
          var t := s.(inFlight := s.inFlight - {id});
          if IsSuccess(status) {
            if IsAwaitedReissue(t, id) {
              var u := Send(t, t.refresh.value.original);
              ReplayAllFacts(u, t.failedQueue);
              ReplayIdsBelow(u, t.failedQueue);
            }
          } else if status == 401 && !r.retry {
          } else if IsAwaitedReissue(t, id) {
            RejectAllFacts(t, t.failedQueue, status);
          }
        }
    }
  }

  lemma ReplayIdsBelow(s: State, queue: seq<Request>)
    requires forall id :: id in s.inFlight ==> id < s.nextId && s.inFlight[id].id == id
    requires forall i :: 0 <= i < |queue| ==> queue[i].id < s.nextId
    ensures forall id :: id in ReplayAll(s, queue).inFlight ==>
              id < s.nextId && ReplayAll(s, queue).inFlight[id].id == id
  {
    ReplayAllFacts(s, queue);
    var t := ReplayAll(s, queue);
    forall id | id in t.inFlight
      ensures id < s.nextId && t.inFlight[id].id == id
    {
      ReplayEntry(s, queue, id);
    }
  }

  /** The entry of an id after replays is the last replayed config of that id. */
  lemma {:induction false} ReplayEntry(s: State, queue: seq<Request>, id: nat)
    requires forall id :: id in s.inFlight ==> s.inFlight[id].id == id
    requires id in ReplayAll(s, queue).inFlight
    ensures ReplayAll(s, queue).inFlight[id].id == id
    ensures id in s.inFlight || exists i :: 0 <= i < |queue| && queue[i].id == id
  {
    if |queue| > 0 {
      var init := queue[..|queue| - 1];
      var last := queue[|queue| - 1];
      if id != last.id {
        ReplayEntry(s, init, id);
        if id !in s.inFlight {
          var i :| 0 <= i < |init| && init[i].id == id;
          assert queue[i] == init[i];
        }
      }
    }
  }

  lemma {:induction false} RunInv(s: State, events: seq<Event>, guardReissue: bool)
    requires Inv(s)
    ensures Inv(Run(s, events, guardReissue))
    decreases |events|
  {
    if |events| > 0 {
      StepInv(s, events[0], guardReissue);
      RunInv(Step(s, events[0], guardReissue), events[1..], guardReissue);
    }
  }

  /** Responses other than 401, and 401s of requests already marked
      `_retry`, pass through: the caller's promise settles with the
      response, and the refresh state is not touched. */
  lemma PassThrough(s: State, id: nat, status: int, guardReissue: bool)
    requires Inv(s) && id in s.inFlight && !IsAwaitedReissue(s, id)
    requires status != 401 || s.inFlight[id].retry
    ensures var t := Step(s, Respond(id, status), guardReissue);
            t.settled == s.settled + [(id, if IsSuccess(status) then Resolved(status) else Rejected(status))] &&
            t.isRefreshing == s.isRefreshing && t.failedQueue == s.failedQueue && t.sent == s.sent &&
            t.location == s.location
  {
    assert s.inFlight[id].id == id;
  }

  /** A 401 while no refresh runs starts exactly one: the request is marked
      `_retry`, isRefreshing is set and one reissue POST is sent. */
  lemma FirstUnauthorizedStartsRefresh(s: State, id: nat, guardReissue: bool)
    requires id in s.inFlight && !s.inFlight[id].retry && !s.isRefreshing
    ensures var t := Step(s, Respond(id, 401), guardReissue);
            t.isRefreshing && t.refresh == Some(Refresh(s.inFlight[id].(retry := true), s.nextId)) &&
            t.sent == s.sent + [Request(s.nextId, ReissueUrl, guardReissue)] && t.settled == s.settled
  {
  }

  /** A 401 while a refresh runs is queued, and sends nothing. */
  lemma UnauthorizedWhileRefreshingQueued(s: State, id: nat, guardReissue: bool)
    requires id in s.inFlight && !s.inFlight[id].retry && s.isRefreshing
    ensures var t := Step(s, Respond(id, 401), guardReissue);
            t.failedQueue == s.failedQueue + [s.inFlight[id]] && t.sent == s.sent && t.isRefreshing &&
            t.settled == s.settled
  {
  }

  /** A successful reissue replays the original request and then every
      queued request, in queue order, and ends the refresh with an empty
      queue. */
  lemma ReissueSuccessReplays(s: State, guardReissue: bool)
    requires Inv(s) && s.refresh.Some? && s.refresh.value.reissueId in s.inFlight
    ensures var t := Step(s, Respond(s.refresh.value.reissueId, 200), guardReissue);
            t.sent == s.sent + [s.refresh.value.original] + s.failedQueue &&
            !t.isRefreshing && t.failedQueue == [] && t.settled == s.settled && t.location == s.location
  {
    var t := s.(inFlight := s.inFlight - {s.refresh.value.reissueId});
    ReplayAllFacts(Send(t, s.refresh.value.original), t.failedQueue);
  }

  /** A reissue that fails with a status other than 401 rejects every queued
      request and then the original one with that status, goes to /login,
      and ends the refresh with an empty queue. Cookies are not cleared. */
  lemma ReissueFailureRejects(s: State, status: int, guardReissue: bool)
    requires Inv(s) && s.refresh.Some? && s.refresh.value.reissueId in s.inFlight
    requires !IsSuccess(status) && status != 401
    ensures var t := Step(s, Respond(s.refresh.value.reissueId, status), guardReissue);
            |t.settled| == |s.settled| + |s.failedQueue| + 1 && t.settled[..|s.settled|] == s.settled &&
            (forall i :: 0 <= i < |s.failedQueue| ==> t.settled[|s.settled| + i] == (s.failedQueue[i].id, Rejected(status))) &&
            t.settled[|t.settled| - 1] == (s.refresh.value.original.id, Rejected(status)) &&
            t.location == Some(LoginUrl) && !t.isRefreshing && t.failedQueue == [] && t.sent == s.sent
  {
    var rid := s.refresh.value.reissueId;
    assert s.inFlight[rid].id == rid;
    var u := s.(inFlight := s.inFlight - {rid});
    RejectAllFacts(u, u.failedQueue, status);
  }

  /** A refresh is stuck when its reissue POST is no longer in flight: no
      event can complete it any more. */
  ghost predicate Stuck(s: State, original: Request, reissueId: nat)
  {
    Inv(s) && s.isRefreshing && s.refresh == Some(Refresh(original, reissueId)) && reissueId !in s.inFlight
  }

  /** No event can complete a stuck refresh: isRefreshing stays set, the
      original request is never settled, no redirect happens, and settlements
      only accumulate. */
  lemma {:induction false} StuckForever(s: State, original: Request, reissueId: nat, events: seq<Event>, guardReissue: bool)
    requires Stuck(s, original, reissueId)
    ensures var t := Run(s, events, guardReissue);
            Stuck(t, original, reissueId) && t.location == s.location &&
            |s.settled| <= |t.settled| && t.settled[..|s.settled|] == s.settled &&
            forall k :: |s.settled| <= k < |t.settled| ==> t.settled[k].0 != original.id
    decreases |events|
  {
    if |events| > 0 {
      var s1 := Step(s, events[0], guardReissue);
      StepInv(s, events[0], guardReissue);
      assert Stuck(s1, original, reissueId) && s1.location == s.location;
      assert |s.settled| <= |s1.settled| && s1.settled[..|s.settled|] == s.settled;
      assert forall k :: |s.settled| <= k < |s1.settled| ==> s1.settled[k].0 != original.id;
      StuckForever(s1, original, reissueId, events[1..], guardReissue);
      var t := Run(s1, events[1..], guardReissue);
      assert t.settled[..|s.settled|] == t.settled[..|s1.settled|][..|s.settled|];
    }
  }

  /** As written: a reissue POST answered 401 passes through the interceptor
      while isRefreshing is set and without `_retry`, so it is queued behind
      itself. The refresh is then stuck for good: every later 401 is queued,
      the original request never settles and the redirect to /login never
      happens. */
  lemma ReissueUnauthorizedHangs(s: State, events: seq<Event>)
    requires Inv(s) && s.refresh.Some? && s.refresh.value.reissueId in s.inFlight
    requires !s.inFlight[s.refresh.value.reissueId].retry
    ensures var s1 := Step(s, Respond(s.refresh.value.reissueId, 401), false);
            var t := Run(s1, events, false);
            t.isRefreshing && t.refresh == s.refresh && t.location == s.location &&
            |t.failedQueue| > |s.failedQueue| && t.failedQueue[..|s.failedQueue| + 1] == s.failedQueue + [s.inFlight[s.refresh.value.reissueId]] &&
            forall k :: |s.settled| <= k < |t.settled| ==> t.settled[k].0 != s.refresh.value.original.id
  {
    var rid := s.refresh.value.reissueId;
    var s1 := Step(s, Respond(rid, 401), false);
    assert s1.failedQueue == s.failedQueue + [s.inFlight[rid]];
    StepInv(s, Respond(rid, 401), false);
    assert Stuck(s1, s.refresh.value.original, rid);
    StuckForever(s1, s.refresh.value.original, rid, events, false);
    QueueOnlyGrows(s1, s.refresh.value.original, rid, events);
  }

  /** While stuck, the queue only grows. */
  lemma {:induction false} QueueOnlyGrows(s: State, original: Request, reissueId: nat, events: seq<Event>)
    requires Stuck(s, original, reissueId)
    ensures |s.failedQueue| <= |Run(s, events, false).failedQueue|
    ensures Run(s, events, false).failedQueue[..|s.failedQueue|] == s.failedQueue
    decreases |events|
  {
    if |events| > 0 {
      var s1 := Step(s, events[0], false);
      StepInv(s, events[0], false);
      StuckForever(s, original, reissueId, [events[0]], false);
      assert Run(s, [events[0]], false) == Run(s1, [], false) == s1 by {
        assert [events[0]][1..] == [];
      }
      QueueOnlyGrows(s1, original, reissueId, events[1..]);
      var t := Run(s1, events[1..], false);
      assert t.failedQueue[..|s.failedQueue|] == t.failedQueue[..|s1.failedQueue|][..|s.failedQueue|];
    }
  }

  /** Corrected: with the reissue POST marked `_retry`, whatever its answer,
      the refresh ends (isRefreshing is cleared and the queue emptied), and
      the original request is either replayed or rejected. */
  lemma GuardedReissueAlwaysEnds(s: State, status: int)
    requires Inv(s) && s.refresh.Some? && s.refresh.value.reissueId in s.inFlight
    requires s.inFlight[s.refresh.value.reissueId].retry
    ensures var t := Step(s, Respond(s.refresh.value.reissueId, status), true);
            !t.isRefreshing && t.refresh.None? && t.failedQueue == [] &&
            (IsSuccess(status) ==> |t.sent| > |s.sent| && t.sent[|s.sent|] == s.refresh.value.original) &&
            (!IsSuccess(status) ==> t.location == Some(LoginUrl) &&
                                    t.settled[|t.settled| - 1] == (s.refresh.value.original.id, Rejected(status)))
  {
    if IsSuccess(status) {
      var u := s.(inFlight := s.inFlight - {s.refresh.value.reissueId});
      ReplayAllFacts(Send(u, s.refresh.value.original), u.failedQueue);
    }
  }

  /** The guarded client marks the reissue POST it sends. */
  lemma GuardedReissueMarked(s: State, id: nat)
    requires id in s.inFlight && !s.inFlight[id].retry && !s.isRefreshing
    ensures var t := Step(s, Respond(id, 401), true);
            t.refresh.Some? && t.refresh.value.reissueId in t.inFlight && t.inFlight[t.refresh.value.reissueId].retry
  {
  }

  /** Queued requests are replayed without `_retry`: a replay that is
      answered 401 again starts a second refresh. */
  lemma QueuedReplayUnguarded(s: State, id: nat, guardReissue: bool)
    requires id in s.inFlight && !s.inFlight[id].retry && !s.isRefreshing
    ensures Step(s, Respond(id, 401), guardReissue).isRefreshing
    ensures |Step(s, Respond(id, 401), guardReissue).sent| == |s.sent| + 1
  {
  }

  /** The module state of axiosInstance.ts as an object. */
  class AxiosInstance {
    var isRefreshing: bool
    var failedQueue: seq<Request>
    var refresh: Option<Refresh>
    var inFlight: map<nat, Request>
    var sent: seq<Request>
    var settled: seq<(nat, Settlement)>
    var location: Option<string>
    var nextId: nat
    const guardReissue: bool

    function Current(): State
      reads this
    {
      State(isRefreshing, failedQueue, refresh, inFlight, sent, settled, location, nextId)
    }

    constructor (guardReissue: bool)
      ensures Current() == Init && this.guardReissue == guardReissue
    {
      isRefreshing, failedQueue, refresh := false, [], None;
      inFlight, sent, settled, location, nextId := map[], [], [], None, 0;
      this.guardReissue := guardReissue;
    }

    /** axiosInstance(config): the request goes out. */
    method Dispatch(r: Request)
      modifies this`inFlight, this`sent
      ensures Current() == Send(old(Current()), r)
    {
      inFlight := inFlight[r.id := r];
      sent := sent + [r];
    }

    /** A caller issues a new request. */
    method Call(url: string) returns (id: nat)
      modifies this
      ensures id == old(nextId)
      ensures Current() == Step(old(Current()), Event.Call(url), guardReissue)
    {
      id := nextId;
      Dispatch(Request(id, url, false));
      nextId := nextId + 1;
    }

    /** processQueue(null): every waiter resolves and replays its request,
        in queue order; the queue is left empty. */
    method ProcessQueueResolve()
      modifies this`inFlight, this`sent, this`failedQueue
      ensures Current() == ReplayAll(old(Current()), old(failedQueue)).(failedQueue := [])
    {
      var queue := failedQueue;
      var i := 0;
      while i < |queue|
        invariant 0 <= i <= |queue|
        invariant Current() == ReplayAll(old(Current()), queue[..i])
      {
        assert queue[..i + 1][..i] == queue[..i];
        Dispatch(queue[i]);
        i := i + 1;
      }
      assert queue[..|queue|] == queue;
      failedQueue := [];
    }

    /** processQueue(error): every waiter is rejected with the error, in
        queue order; the queue is left empty. */
    method ProcessQueueReject(status: int)
      modifies this`settled, this`failedQueue
      ensures Current() == RejectAll(old(Current()), old(failedQueue), status).(failedQueue := [])
    {
      var queue := failedQueue;
      var i := 0;
      while i < |queue|
        invariant 0 <= i <= |queue|
        invariant Current() == RejectAll(old(Current()), queue[..i], status)
      {
        assert queue[..i + 1][..i] == queue[..i];
        settled := settled + [(queue[i].id, Rejected(status))];
        i := i + 1;
      }
      assert queue[..|queue|] == queue;
      failedQueue := [];
    }

    /** The response of request `id` arrives: the interceptor runs, and for
        the awaited reissue POST the refresh continues. */
    method Respond(id: nat, status: int)
      modifies this
      ensures Current() == Step(old(Current()), Event.Respond(id, status), guardReissue)
    {
      if id !in inFlight {
        return;
      }
      var r := inFlight[id];
      inFlight := inFlight - {id};
      var awaited := refresh.Some? && refresh.value.reissueId == id;
      if IsSuccess(status) {
        if awaited {
          var original := refresh.value.original;
          Dispatch(original);
          ProcessQueueResolve();
          isRefreshing := false;
          refresh := None;
        } else {
          settled := settled + [(id, Resolved(status))];
        }
      } else if status == 401 && !r.retry {
        if isRefreshing {
          failedQueue := failedQueue + [r];
        } else {
          var reissue := Request(nextId, ReissueUrl, guardReissue);
          refresh := Some(Refresh(r.(retry := true), reissue.id));
          isRefreshing := true;
          Dispatch(reissue);
          nextId := nextId + 1;
        }
      } else if refresh.Some? && refresh.value.reissueId == r.id {
        var original := refresh.value.original;
        ProcessQueueReject(status);
        location := Some(LoginUrl);
        settled := settled + [(original.id, Rejected(status))];
        isRefreshing := false;
        refresh := None;
      } else {
        settled := settled + [(r.id, Rejected(status))];
      }
    }
  }
}
