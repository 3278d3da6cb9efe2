/**
 * The subscriber session in the form of the source: tables that are updated in place, a queue that
 * is emptied from the front, and loops that go on while handlers change what they loop over.
 */
module SubscriberObject {
  import opened Basics
  import opened Subscribing
  import Invariants = SubscribingInvariants

  class Subscriber {
    var ready: bool
    var nextId: nat
    var requests: map<u64, Request>
    var routes: map<u64, nat>
    var store: seq<Route>
    var settled: map<u64, Verdict>
    /** What each promise was for and what has passed on each request stream. */
    var roles: map<u64, Role>
    var history: map<u64, History>
    var broken: bool

    ghost function View(): State
      reads this
    {
      State(ready, nextId, requests, routes, store, settled, roles, history, broken)
    }

    ghost predicate Valid()
      reads this
    {
      Invariants.Good(View())
    }

    constructor ()
      ensures View() == INITIAL && Valid()
    {
      ready, nextId, requests, routes, store := true, 0, map[], map[], [];
      settled, roles, history, broken := map[], map[], map[], false;
      new;
      Invariants.Reachable([]);
    }

    method FailPromise(p: u64, v: Verdict)
      modifies this`settled
      ensures View() == Fail(old(View()), p, v)
    {
      if p !in settled {
        settled := settled[p := v];
      }
    }

    method SetPromise(p: u64, v: Verdict)
      modifies this`settled, this`broken
      ensures View() == SetValue(old(View()), p, v)
    {
      if p in settled {
        broken := true;
      } else {
        settled := settled[p := v];
      }
    }

    /** fail_updates: the queue is emptied from the front. */
    method FailUpdates(queue: seq<u64>, v: Verdict)
      modifies this`settled
      ensures View() == FailAll(old(View()), queue, v)
    {
      hide Fail;
      var updates := queue;
      while updates != []
        invariant FailAll(View(), updates, v) == FailAll(old(View()), queue, v)
        decreases |updates|
      {
        FailPromise(updates[0], v);
        updates := updates[1..];
      }
    }

    /** retire_route. */
    method RetireRoute(alias: u64)
      modifies this`routes, this`store
      ensures View() == Retire(old(View()), alias)
    {
      if alias in routes {
        var route := routes[alias];
        if route < |store| {
          store := store[route := store[route].(active := false)];
        }
        routes := routes - {alias};
      }
    }

    /** terminate, up to the handler's callback. */
    method TerminateRequest(id: u64)
      modifies this
      ensures View() == Terminate(old(View()), id)
    {
      hide Fail, FailAll, Retire;
      if id !in requests {
        return;
      }
      var r := requests[id];
      if r.resultHeld {
        FailPromise(id, Failed);
      }
      ghost var st1 := View();
      FailUpdates(r.updates, Failed);
      assert requests == old(requests) by { FailsLeave(old(View()), id, r); }
      ghost var st2 := View();
      if r.alias.Some? {
        RetireRoute(r.alias.value);
      }
      requests := requests - {id};
      RetireLeaves(st2, r.alias);
    }

    /** subscribe, with a handler and an encodable request. */
    method SubscribeNow(sendOk: bool)
      modifies this
      ensures View() == Subscribe(old(View()), sendOk)
    {
      hide Terminate, Fail;
      if !ready || nextId > MAX64 - 2 {
        return;
      }
      var id := nextId;
      nextId := nextId + 2;
      requests := requests[id := Request(Pending, None, true, [])];
      roles, history := roles[id := ForSubscribe], history[id := History([], [], None)];
      if !sendOk {
        TerminateRequest(id);
        FailPromise(id, Failed);
      }
    }

    /** request_update. */
    method SendUpdate(id: u64, sendOk: bool)
      modifies this
      ensures View() == RequestUpdate(old(View()), id, sendOk)
    {
      if id !in requests || !requests[id].phase.Established? || nextId > MAX64 - 2 || id !in history {
        return;
      }
      var p := nextId;
      nextId := nextId + 2;
      if !sendOk {
        roles := roles[p := Unsent];
        FailPromise(p, Failed);
        return;
      }
      var r, h := requests[id], history[id];
      requests := requests[id := r.(updates := r.updates + [p])];
      roles, history := roles[p := ForUpdate(id, |h.sent|)], history[id := h.(sent := h.sent + [p])];
    }

    /** What a handler does while the session closes. */
    method React(qs: seq<Quick>)
      modifies this
      ensures View() == DoQuick(old(View()), qs)
    {
      hide Terminate, RequestUpdate;
      var rest := qs;
      while rest != []
        invariant DoQuick(View(), rest) == DoQuick(old(View()), qs)
        decreases |rest|
      {
        match rest[0] {
          case StopNow(id) => TerminateRequest(id);
          case UpdateNow(id, ok) => SendUpdate(id, ok);
        }
        rest := rest[1..];
      }
    }

    /** terminate_subscriptions: over a copy of the table. */
    method TerminateSubscriptions(order: seq<u64>, reactions: seq<seq<Quick>>)
      modifies this
      ensures View() == TerminateAll(old(View()), order, reactions)
    {
      hide Terminate, DoQuick;
      var rest, left := order, reactions;
      while rest != []
        invariant TerminateAll(View(), rest, left) == TerminateAll(old(View()), order, reactions)
        decreases |rest|
      {
        var live := rest[0] in requests;
        TerminateRequest(rest[0]);
        if live && left != [] {
          React(left[0]);
        }
        rest, left := rest[1..], if left == [] then [] else left[1..];
      }
    }

    /** begin_close. */
    method Shut(order: seq<u64>, reactions: seq<seq<Quick>>)
      modifies this
      ensures View() == Shutdown(old(View()), order, reactions)
    {
      hide TerminateAll;
      if ready {
        ready := false;
        TerminateSubscriptions(order, reactions);
      }
    }

    method Perform(c: Call)
      modifies this
      ensures View() == Do(old(View()), c)
    {
      hide Terminate, RequestUpdate, Subscribe, Shutdown;
      match c
      case Stop(id) => TerminateRequest(id);
      case Update(id, ok) => SendUpdate(id, ok);
      case NewSubscription(ok) => SubscribeNow(ok);
      case Close(order, reactions) => Shut(order, reactions);
    }

    method PerformAll(calls: seq<Call>)
      modifies this
      ensures View() == DoAll(old(View()), calls)
    {
      hide Do;
      var rest := calls;
      while rest != []
        invariant DoAll(View(), rest) == DoAll(old(View()), calls)
        decreases |rest|
      {
        Perform(rest[0]);
        rest := rest[1..];
      }
    }

    method AbortRequest(id: u64, reaction: seq<Call>)
      modifies this
      ensures View() == Abort(old(View()), id, reaction)
    {
      hide Terminate, DoAll;
      TerminateRequest(id);
      PerformAll(reaction);
    }

    /** SUBSCRIBE_OK on a pending request, for a free alias. */
    method BindAlias(id: u64, alias: u64, replay: seq<Call>)
      requires id in requests && alias !in routes
      modifies this
      ensures View() == Bind(old(View()), id, alias, replay)
    {
      hide DoAll, Retire, SetValue;
      routes, store := routes[alias := |store|], store + [Route(id, alias, true)];
      PerformAll(replay);
      if id !in requests {
        RetireRoute(alias);
        return;
      }
      var r := requests[id];
      ghost var st1 := View();
      SetPromise(id, Granted(alias));
      requests := requests[id := r.(phase := Established, alias := Some(alias), resultHeld := false)];
      SetLeaves(st1, id, Granted(alias));
    }

    /** handle_control_message, and what the handlers it calls do. */
    method HandleControlMessage(id: u64, m: Message)
      requires Valid() && Allowed(View(), Received(id, m))
      modifies this
      ensures Valid() && View() == Step(old(View()), Received(id, m))
    {
      hide Invariants.Good, Allowed, Abort, Shutdown, Bind, Handle;
      Invariants.StepGood(View(), Received(id, m));
      Dispatch(id, m);
    }

    method Dispatch(id: u64, m: Message)
      modifies this
      ensures View() == Handle(old(View()), id, m)
    {
      hide Abort, Shutdown, Bind, DoAll, Terminate, FailAll, Fail, SetValue;
      if id !in requests || id !in history {
        return;
      }
      var pending := requests[id].phase.Pending?;
      match m
      case SubscribeOk(alias, replay, order, reactions) =>
        if !pending {
          AbortRequest(id, replay);
        } else if alias in routes {
          Shut(order, reactions);
        } else {
          BindAlias(id, alias, replay);
        }
      case RequestError(tag, reaction) => Refused(id, tag, reaction);
      case RequestOk(tag, properties, reaction) => Answer(id, tag, properties, reaction);
      case PublishDone(reaction) =>
        if pending {
          AbortRequest(id, reaction);
        } else {
          PerformAll(reaction);
          TerminateRequest(id);
        }
      case GoAway(reaction) =>
        if pending {
          AbortRequest(id, reaction);
        }
      case Undecodable(reaction) => AbortRequest(id, reaction);
      case Unknown(reaction) =>
        if pending {
          AbortRequest(id, reaction);
        } else {
          PerformAll(reaction);
        }
    }

    /** REQUEST_ERROR. */
    method Refused(id: u64, tag: nat, reaction: seq<Call>)
      requires id in requests && id in history
      modifies this
      ensures View() == Handle(old(View()), id, RequestError(tag, reaction))
    {
      hide Abort, Terminate, FailAll, Fail;
      var r, h := requests[id], history[id];
      if r.phase.Pending? {
        FailLeaves(View(), id, Rejected(tag));
        FailPromise(id, Rejected(tag));
        requests := requests[id := r.(resultHeld := false)];
        TerminateRequest(id);
      } else if r.updates == [] {
        AbortRequest(id, reaction);
      } else {
        FailAllLeaves(View(), r.updates, Rejected(tag));
        FailUpdates(r.updates, Rejected(tag));
        requests := requests[id := r.(phase := UpdateFailed, updates := [])];
        history := history[id := h.(error := Some(tag))];
      }
    }

    /** REQUEST_OK settles the first update of the queue. */
    method Answer(id: u64, tag: nat, properties: bool, reaction: seq<Call>)
      requires id in requests && id in history
      modifies this
      ensures View() == Handle(old(View()), id, RequestOk(tag, properties, reaction))
    {
      hide Abort, SetValue;
      var r, h := requests[id], history[id];
      if r.phase.Pending? || r.updates == [] || properties {
        AbortRequest(id, reaction);
      } else {
        SetLeaves(View(), r.updates[0], Answered(tag));
        SetPromise(r.updates[0], Answered(tag));
        requests := requests[id := r.(updates := r.updates[1..])];
        history := history[id := h.(oks := h.oks + [tag])];
      }
    }

    /** on_peer_send_aborted and on_stream_closed. */
    method OnStreamEnded(id: u64, reaction: seq<Call>)
      requires Valid() && Allowed(View(), StreamEnded(id, reaction))
      modifies this
      ensures Valid() && View() == Step(old(View()), StreamEnded(id, reaction))
    {
      hide Invariants.Good, Allowed, Abort;
      Invariants.StepGood(View(), StreamEnded(id, reaction));
      if id in requests {
        AbortRequest(id, reaction);
      }
    }
  }

  lemma FailLeaves(st: State, p: u64, v: Verdict)
    ensures Fail(st, p, v) == st.(settled := Fail(st, p, v).settled)
  {
  }

  lemma SetLeaves(st: State, p: u64, v: Verdict)
    ensures SetValue(st, p, v) == st.(settled := SetValue(st, p, v).settled, broken := SetValue(st, p, v).broken)
  {
  }

  lemma {:induction false} FailAllLeaves(st: State, ps: seq<u64>, v: Verdict)
    ensures FailAll(st, ps, v) == st.(settled := FailAll(st, ps, v).settled)
    decreases |ps|
  {
    if ps != [] {
      FailAllLeaves(Fail(st, ps[0], v), ps[1..], v);
    }
  }

  lemma FailsLeave(st: State, id: u64, r: Request)
    ensures FailDue(st, id, r) == st.(settled := FailDue(st, id, r).settled)
  {
    hide FailAll;
    FailAllLeaves(if r.resultHeld then Fail(st, id, Failed) else st, r.updates, Failed);
  }

  lemma RetireLeaves(st: State, alias: Option<u64>)
    ensures alias.Some? ==> Retire(st, alias.value).requests == st.requests
  {
  }
}
