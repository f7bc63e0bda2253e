/**
 * The coordinator's client, `TcpController` of utils/tcpController.js:
 * it writes `;`-terminated requests, keeps the GET_TASK requests that
 * await their TASK reply, tracks whether the coordinator accepted its
 * AUTH, and passes AUTH_RESULT and CHOSEN_MASTER on to the callbacks
 * registered with `on`.
 */
module TcpClient {
  import opened JsArrays
  import opened Framing
  import opened CoordinatorSpec

  /** A `#pendingRequests` entry: the GET_TASK data sent, and the promise `getTask` returned. */
  datatype PendingRequest = PendingRequest(task: Request, promise: nat)

  /** A `registeredCallbacks` entry. */
  datatype Registration = Registration(event: string, callback: nat)

  /** What a callback is called with: `isAuthenticated`, or the CHOSEN_MASTER data. */
  datatype Argument = Authenticated(value: bool) | MasterData(master: Option<string>, isMaster: bool)

  datatype Call = Call(callback: nat, arg: Argument)

  function RequestId(r: PendingRequest): string
  {
    if r.task.GetTask? then r.task.requestId else ""
  }

  function HasRequestId(id: string): PendingRequest -> bool
  {
    (r: PendingRequest) => RequestId(r) == id
  }

  /** `registeredCallbacks.forEach(({event, callback}) => event == e && callback(arg))`. */
  function Notify(callbacks: seq<Registration>, event: string, arg: Argument): seq<Call>
  {
    if callbacks == [] then []
    else
      var last := callbacks[|callbacks| - 1];
      Notify(callbacks[..|callbacks| - 1], event, arg) + (if last.event == event then [Call(last.callback, arg)] else [])
  }

  function OnEvent(event: string): Registration -> bool
  {
    (r: Registration) => r.event == event
  }

  /** Exactly the callbacks registered for the event are called, in registration order, with the argument. */
  lemma {:induction false} NotifyCallsRegistered(callbacks: seq<Registration>, event: string, arg: Argument)
    ensures var calls := Notify(callbacks, event, arg);
            var regs := Filter(callbacks, OnEvent(event));
            |calls| == |regs| && forall k :: 0 <= k < |calls| ==> calls[k] == Call(regs[k].callback, arg)
  {
    if callbacks != [] {
      var n := |callbacks| - 1;
      NotifyCallsRegistered(callbacks[..n], event, arg);
      FilterAppend(callbacks[..n], [callbacks[n]], OnEvent(event));
      assert callbacks[..n] + [callbacks[n]] == callbacks;
    }
  }

  /** A TASK reply for a pending id: all pending requests with that id go, the others stay in order. */
  function Answered(pending: seq<PendingRequest>, id: string): seq<PendingRequest>
  {
    Filter(pending, Not(HasRequestId(id)))
  }

  /** A GET_TASK under an id no pending request has, once answered, leaves the table as it was. */
  lemma {:induction false} AnswerUndoesRequest(pending: seq<PendingRequest>, request: PendingRequest)
    requires forall k :: 0 <= k < |pending| ==> RequestId(pending[k]) != RequestId(request)
    ensures Answered(pending + [request], RequestId(request)) == pending
  {
    var p := Not(HasRequestId(RequestId(request)));
    FilterAppend(pending, [request], p);
    FilterAll(pending, p);
    assert Filter([request], p) == [] by {
      assert [request][1..] == [];
    }
  }

  /** Answering an id leaves no pending request with it, and keeps every other one. */
  lemma AnsweredSpec(pending: seq<PendingRequest>, id: string)
    ensures forall k :: 0 <= k < |Answered(pending, id)| ==> RequestId(Answered(pending, id)[k]) != id
    ensures forall k :: 0 <= k < |pending| && RequestId(pending[k]) != id ==> pending[k] in Answered(pending, id)
  {
    FilterMembers(pending, Not(HasRequestId(id)));
  }

  /** What a reply can change: the pending requests, the flag, the resolved promises and the callback calls. */
  datatype ClientState = ClientState(pending: seq<PendingRequest>, authenticated: bool, resolved: map<nat, Reply>, calls: seq<Call>)

  /**
   * One parsed reply. A successful AUTH_RESULT sets the flag and tells the
   * 'authenticated' callbacks; a failed one throws before any change.
   * CHOSEN_MASTER goes to the 'chosen_master' callbacks. A TASK for a
   * pending id resolves the first request with it and drops all of them.
   */
  function React(st: ClientState, callbacks: seq<Registration>, m: Reply): ClientState
  {
    match m
    case AuthAccepted =>
      st.(authenticated := true, calls := st.calls + Notify(callbacks, "authenticated", Authenticated(true)))
    case AuthRejected(_) => st
    case ChosenMaster(master, isMaster) =>
      st.(calls := st.calls + Notify(callbacks, "chosen_master", MasterData(master, isMaster)))
    case TaskReply(id, _) =>
      var i := FindIndex(st.pending, HasRequestId(id));
      if i == -1 then st
      else st.(pending := Answered(st.pending, id), resolved := st.resolved[st.pending[i].promise := m])
  }

  /** One piece of a chunk: a piece that does not parse is skipped. */
  function ReactPiece(st: ClientState, callbacks: seq<Registration>, m: Option<Reply>): ClientState
  {
    if m.Some? then React(st, callbacks, m.value) else st
  }

  /** The pieces of a chunk in order; a piece that does not parse is skipped. */
  function ReactAll(st: ClientState, callbacks: seq<Registration>, ms: seq<Option<Reply>>): ClientState
  {
    if ms == [] then st
    else ReactPiece(ReactAll(st, callbacks, ms[..|ms| - 1]), callbacks, ms[|ms| - 1])
  }

  /**
   * Replies only append callback calls, only drop pending requests, and
   * never un-resolve a promise; every promise resolved was pending.
   */
  lemma {:induction false} ReactAllMonotone(st: ClientState, callbacks: seq<Registration>, ms: seq<Option<Reply>>)
    ensures var r := ReactAll(st, callbacks, ms);
            st.calls <= r.calls &&
            (forall k :: 0 <= k < |r.pending| ==> r.pending[k] in st.pending) &&
            st.resolved.Keys <= r.resolved.Keys &&
            (forall p :: p in r.resolved && p !in st.resolved ==> exists k :: 0 <= k < |st.pending| && st.pending[k].promise == p)
  {
    if ms != [] {
      var prev := ReactAll(st, callbacks, ms[..|ms| - 1]);
      ReactAllMonotone(st, callbacks, ms[..|ms| - 1]);
      var last := ms[|ms| - 1];
      if last.Some? && last.value.TaskReply? {
        var id := last.value.requestId;
        FilterMembers(prev.pending, Not(HasRequestId(id)));
        var i := FindIndex(prev.pending, HasRequestId(id));
        if i != -1 {
          var p := prev.pending[i].promise;
          if p !in st.resolved {
            assert prev.pending[i] in st.pending;
            var k :| 0 <= k < |st.pending| && st.pending[k] == prev.pending[i];
          }
        }
      }
    }
  }

  /** One more piece: the fold of a prefix extended by its next element. */
  lemma ReactAllStep(st: ClientState, callbacks: seq<Registration>, ms: seq<Option<Reply>>, n: nat)
    requires n < |ms|
    ensures ReactAll(st, callbacks, ms[..n + 1]) == ReactPiece(ReactAll(st, callbacks, ms[..n]), callbacks, ms[n])
  {
    assert ms[..n + 1][..n] == ms[..n];
  }

  /** A piece that parses to a failed AUTH_RESULT. */
  predicate Rejection(m: Option<Reply>)
  {
    m.Some? && m.value.AuthRejected?
  }

  class TcpController {
    var pendingRequests: seq<PendingRequest>
    var isAuthenticated: bool
    /** `_reconnect`. */
    var reconnect: bool
    var registeredCallbacks: seq<Registration>
    /** Every request written, each followed by `;`. */
    var sent: seq<Request>
    /** Promises `getTask` returned that have resolved, with their TASK data. */
    var resolved: map<nat, Reply>
    /** Every callback invocation, in order. */
    var calls: seq<Call>
    var nextPromise: nat
    /** `destroy` has ended the socket. */
    var ended: bool
    /** A failed AUTH_RESULT has thrown out of the data handler. */
    var crashed: bool

    /** The fields a reply can change. */
    function Snapshot(): ClientState
      reads this
    {
      ClientState(pendingRequests, isAuthenticated, resolved, calls)
    }

    constructor (reconnectOnClose: bool)
      ensures pendingRequests == [] && !isAuthenticated && reconnect == reconnectOnClose
      ensures registeredCallbacks == [] && sent == [] && resolved == map[] && calls == []
      ensures nextPromise == 0 && !ended && !crashed
    {
      pendingRequests, isAuthenticated, reconnect := [], false, reconnectOnClose;
      registeredCallbacks, sent, resolved, calls := [], [], map[], [];
      nextPromise, ended, crashed := 0, false, false;
    }

    /** `completedTask`: a COMPLETED_TASK record whose data is the argument itself. */
    method CompletedTask(taskId: TaskId)
      modifies this
      ensures sent == old(sent) + [Request.CompletedTask(taskId)]
      ensures pendingRequests == old(pendingRequests) && isAuthenticated == old(isAuthenticated)
      ensures reconnect == old(reconnect) && registeredCallbacks == old(registeredCallbacks)
      ensures resolved == old(resolved) && calls == old(calls) && nextPromise == old(nextPromise)
      ensures ended == old(ended) && crashed == old(crashed)
    {
      sent := sent + [Request.CompletedTask(taskId)];
    }

    /** `sendMasterData`: a MASTER_FARM_INFO record. */
    method SendMasterData(farmland: seq<Pos>, crops: seq<CropSpot>)
      modifies this
      ensures sent == old(sent) + [MasterFarmInfo(farmland, crops)]
      ensures pendingRequests == old(pendingRequests) && isAuthenticated == old(isAuthenticated)
      ensures reconnect == old(reconnect) && registeredCallbacks == old(registeredCallbacks)
      ensures resolved == old(resolved) && calls == old(calls) && nextPromise == old(nextPromise)
      ensures ended == old(ended) && crashed == old(crashed)
    {
      sent := sent + [MasterFarmInfo(farmland, crops)];
    }

    /**
     * `getTask`: a new promise; the request, under the random id `taskId`,
     * is recorded as pending and written.
     */
    method GetTask(taskId: string, farmableCrops: seq<string>, position: Pos) returns (p: nat)
      modifies this
      ensures p == old(nextPromise) && nextPromise == p + 1
      ensures pendingRequests == old(pendingRequests) + [PendingRequest(Request.GetTask(taskId, farmableCrops, position), p)]
      ensures sent == old(sent) + [Request.GetTask(taskId, farmableCrops, position)]
      ensures isAuthenticated == old(isAuthenticated) && reconnect == old(reconnect)
      ensures registeredCallbacks == old(registeredCallbacks) && resolved == old(resolved) && calls == old(calls)
      ensures ended == old(ended) && crashed == old(crashed)
    {
      p := nextPromise;
      nextPromise := nextPromise + 1;
      var task := Request.GetTask(taskId, farmableCrops, position);
      pendingRequests := pendingRequests + [PendingRequest(task, p)];
      sent := sent + [task];
    }

    /** `reconnect(v)`: only a boolean changes the flag; the flag is returned. */
    method Reconnect(v: Option<bool>) returns (r: bool)
      modifies this
      ensures reconnect == (if v.Some? then v.value else old(reconnect)) && r == reconnect
      ensures pendingRequests == old(pendingRequests) && isAuthenticated == old(isAuthenticated)
      ensures registeredCallbacks == old(registeredCallbacks) && sent == old(sent)
      ensures resolved == old(resolved) && calls == old(calls) && nextPromise == old(nextPromise)
      ensures ended == old(ended) && crashed == old(crashed)
    {
      if v.Some? {
        reconnect := v.value;
      }
      return reconnect;
    }

    /** `on`: the callback is registered for the event. */
    method On(event: string, callback: nat)
      modifies this
      ensures registeredCallbacks == old(registeredCallbacks) + [Registration(event, callback)]
      ensures pendingRequests == old(pendingRequests) && isAuthenticated == old(isAuthenticated)
      ensures reconnect == old(reconnect) && sent == old(sent)
      ensures resolved == old(resolved) && calls == old(calls) && nextPromise == old(nextPromise)
      ensures ended == old(ended) && crashed == old(crashed)
    {
      registeredCallbacks := registeredCallbacks + [Registration(event, callback)];
    }

    /** `authenticate`: not authenticated until the reply; an AUTH record with the bot's identity. */
    method Authenticate(username: string, uuid: string)
      modifies this
      ensures !isAuthenticated
      ensures sent == old(sent) + [Auth(username, uuid)]
      ensures pendingRequests == old(pendingRequests) && reconnect == old(reconnect)
      ensures registeredCallbacks == old(registeredCallbacks)
      ensures resolved == old(resolved) && calls == old(calls) && nextPromise == old(nextPromise)
      ensures ended == old(ended) && crashed == old(crashed)
    {
      isAuthenticated := false;
      sent := sent + [Auth(username, uuid)];
    }

    /** `destroy`: no reconnecting, and the socket is ended. */
    method Destroy()
      modifies this
      ensures !reconnect && ended
      ensures pendingRequests == old(pendingRequests) && isAuthenticated == old(isAuthenticated)
      ensures registeredCallbacks == old(registeredCallbacks) && sent == old(sent)
      ensures resolved == old(resolved) && calls == old(calls) && nextPromise == old(nextPromise)
      ensures crashed == old(crashed)
    {
      reconnect := false;
      ended := true;
    }

    /** Calls every callback registered for `event` with `arg`. */
    method Dispatch(event: string, arg: Argument)
      modifies this
      ensures calls == old(calls) + Notify(registeredCallbacks, event, arg)
      ensures pendingRequests == old(pendingRequests) && isAuthenticated == old(isAuthenticated)
      ensures reconnect == old(reconnect) && registeredCallbacks == old(registeredCallbacks) && sent == old(sent)
      ensures resolved == old(resolved) && nextPromise == old(nextPromise)
      ensures ended == old(ended) && crashed == old(crashed)
    {
      var out := calls;
      var i := 0;
      while i < |registeredCallbacks|
        invariant 0 <= i <= |registeredCallbacks|
        invariant out == old(calls) + Notify(registeredCallbacks[..i], event, arg)
      {
        assert registeredCallbacks[..i + 1][..i] == registeredCallbacks[..i];
        if registeredCallbacks[i].event == event {
          out := out + [Call(registeredCallbacks[i].callback, arg)];
        }
        i := i + 1;
      }
      assert registeredCallbacks[..i] == registeredCallbacks;
      calls := out;
    }

    /**
     * One parsed record of `_onData`. A successful AUTH_RESULT sets
     * `isAuthenticated` and tells the 'authenticated' callbacks; a failed
     * one throws (`ok` false) and changes nothing. CHOSEN_MASTER is passed
     * to the 'chosen_master' callbacks. A TASK whose id matches a pending
     * request resolves the first such request and drops every request with
     * that id; an unknown id changes nothing.
     */
    method HandleReply(m: Reply) returns (ok: bool)
      modifies this
      ensures ok <==> !m.AuthRejected?
      ensures Snapshot() == React(old(Snapshot()), registeredCallbacks, m)
      ensures reconnect == old(reconnect) && registeredCallbacks == old(registeredCallbacks) && sent == old(sent)
      ensures nextPromise == old(nextPromise) && ended == old(ended) && crashed == old(crashed)
    {
      match m
      case AuthAccepted =>
        isAuthenticated := true;
        Dispatch("authenticated", Authenticated(isAuthenticated));
        return true;
      case AuthRejected(_) =>
        return false;
      case ChosenMaster(master, isMaster) =>
        Dispatch("chosen_master", MasterData(master, isMaster));
        return true;
      case TaskReply(id, _) =>
        var i := FindIndex(pendingRequests, HasRequestId(id));
        if i != -1 {
          resolved := resolved[pendingRequests[i].promise := m];
          pendingRequests := Filter(pendingRequests, Not(HasRequestId(id)));
        }
        return true;
    }

    /**
     * `_onData`: the chunk is split on `;` and each piece handled in
     * order; a piece that does not parse is skipped. A failed AUTH_RESULT
     * throws out of the handler, so the pieces after it are not handled.
     * Returns how many pieces were looked at.
     */
    method OnData(chunk: string, parse: string -> Option<Reply>) returns (handled: nat)
      modifies this
      ensures handled <= |Split(chunk, Terminator)|
      ensures forall k :: 0 <= k < handled ==> !Rejection(parse(Split(chunk, Terminator)[k]))
      ensures handled < |Split(chunk, Terminator)| ==>
                crashed && Rejection(parse(Split(chunk, Terminator)[handled]))
      ensures handled == |Split(chunk, Terminator)| ==> crashed == old(crashed)
      ensures Snapshot() == ReactAll(old(Snapshot()), registeredCallbacks, Parses(Split(chunk, Terminator), parse)[..handled])
      ensures reconnect == old(reconnect) && registeredCallbacks == old(registeredCallbacks) && sent == old(sent)
      ensures nextPromise == old(nextPromise) && ended == old(ended)
    {
      handled := HandleAll(Parses(Split(chunk, Terminator), parse));
    }

    /** The loop over a chunk's parsed pieces; stops at the first rejected AUTH. */
    method HandleAll(messages: seq<Option<Reply>>) returns (handled: nat)
      modifies this
      ensures handled <= |messages|
      ensures forall k :: 0 <= k < handled ==> !Rejection(messages[k])
      ensures handled < |messages| ==> crashed && Rejection(messages[handled])
      ensures handled == |messages| ==> crashed == old(crashed)
      ensures Snapshot() == ReactAll(old(Snapshot()), registeredCallbacks, messages[..handled])
      ensures reconnect == old(reconnect) && registeredCallbacks == old(registeredCallbacks) && sent == old(sent)
      ensures nextPromise == old(nextPromise) && ended == old(ended)
    {
      handled := 0;
      while handled < |messages|
        invariant handled <= |messages|
        invariant forall k :: 0 <= k < handled ==> !Rejection(messages[k])
        invariant Snapshot() == ReactAll(old(Snapshot()), registeredCallbacks, messages[..handled])
        invariant reconnect == old(reconnect) && registeredCallbacks == old(registeredCallbacks) && sent == old(sent)
        invariant nextPromise == old(nextPromise) && ended == old(ended) && crashed == old(crashed)
      {
        ReactAllStep(old(Snapshot()), registeredCallbacks, messages, handled);
        var ok := HandlePiece(messages[handled]);
        if !ok {
          return;
        }
        handled := handled + 1;
      }
    }

    /** Handles one parsed piece; a rejected AUTH throws, which `crashed` records. */
    method HandlePiece(m: Option<Reply>) returns (ok: bool)
      modifies this
      ensures ok <==> !Rejection(m)
      ensures crashed == (old(crashed) || !ok)
      ensures Snapshot() == ReactPiece(old(Snapshot()), registeredCallbacks, m)
      ensures reconnect == old(reconnect) && registeredCallbacks == old(registeredCallbacks) && sent == old(sent)
      ensures nextPromise == old(nextPromise) && ended == old(ended)
    {
      ok := true;
      if m.Some? {
        ok := HandleReply(m.value);
        if !ok {
          crashed := true;
        }
      }
    }
  }
}
