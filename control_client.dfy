/**
 * The block-claim client of utils/controlUtils.js: a table `sendMessages`
 * of requests awaiting their ACK, keyed by a random message id, each with
 * a 500 ms timer that re-sends the request under a fresh id; the promise
 * of the original request is settled by its own ACK or by the outcome of
 * the re-send it awaits.
 */
module ControlClient {
  import opened JsArrays
  import opened Framing

  /** `Math.floor(Math.random() * 10000000000)` draws from [0, IdRange). */
  const IdRange: int := 10000000000

  /** A promise returned by `sendControlMessage`, numbered in creation order. */
  type PromiseId = nat

  /** The request's `data`: the username that picks the socket, and the rest of the object. */
  datatype Payload = Payload(username: string, rest: string)

  /** An entry of `sendMessages` (its `resolve`/`reject` are those of `promise`). */
  datatype Pending = Pending(messageType: string, data: Payload, sentTime: int, ack: bool, promise: PromiseId)

  /** What a promise resolves with: `false` when no socket exists, or the ACK's `data`. */
  datatype Outcome = NoSocket | Acked(messageId: int, reply: string)

  /** `{type, id, data}` written, without a terminator, on the socket of `data.username`. */
  datatype Sent = Sent(messageType: string, id: int, data: Payload)

  /** A timed-out request's continuation: when the re-send settles, settle `promise` and delete `oldId`. */
  datatype Waiter = Waiter(promise: PromiseId, oldId: int)

  /** `message.data.isMaster` under loose equality with `true` and with `false`. */
  datatype Flag = LooseTrue | LooseFalse | Neither

  datatype Incoming =
    | AckMsg(messageId: int, reply: string)
    | MasterMsg(isMaster: Flag, username: string)
    | OtherMsg(kind: string)

  /** A draw `generateUniqueId` accepts: truthy, and not already a key. */
  predicate Usable(keys: set<int>, draw: int)
  {
    draw != 0 && draw !in keys
  }

  /**
   * `generateUniqueId`: draws until one is neither 0 (falsy) nor a key of
   * the table. The draws are the successive random values.
   */
  method GenerateUniqueId(keys: set<int>, draws: seq<int>) returns (id: int)
    requires exists k :: 0 <= k < |draws| && Usable(keys, draws[k])
    requires forall k :: 0 <= k < |draws| ==> 0 <= draws[k] < IdRange
    ensures Usable(keys, id) && 0 < id < IdRange
    ensures exists k :: 0 <= k < |draws| && draws[k] == id && forall j :: 0 <= j < k ==> !Usable(keys, draws[j])
  {
    var i := 0;
    while true
      invariant 0 <= i < |draws|
      invariant forall j :: 0 <= j < i ==> !Usable(keys, draws[j])
      decreases |draws| - i
    {
      if draws[i] != 0 && draws[i] !in keys {
        return draws[i];
      }
      i := i + 1;
    }
  }

  /** The `isMaster` update: set by a loosely-true flag, cleared by a loosely-false one. */
  function MasterUpdate(isMaster: bool, flag: Flag): (r: bool)
    ensures flag == Neither ==> r == isMaster
  {
    if !isMaster && flag == LooseTrue then true
    else if isMaster && flag == LooseFalse then false
    else isMaster
  }

  /** For a boolean `isMaster` in the message, the flag takes its value. */
  lemma MasterFollowsMessage(isMaster: bool, b: bool)
    ensures MasterUpdate(isMaster, if b then LooseTrue else LooseFalse) == b
  {
  }

  /** `resolve` on a promise settles it once; later calls do nothing. */
  function Resolved(settled: map<PromiseId, Outcome>, p: PromiseId, v: Outcome): (r: map<PromiseId, Outcome>)
    ensures p in r && r.Keys == settled.Keys + {p}
    ensures p in settled ==> r[p] == settled[p]
    ensures p !in settled ==> r[p] == v
    ensures forall q :: q in settled && q != p ==> q in r && r[q] == settled[q]
  {
    if p in settled then settled else settled[p := v]
  }

  /** The pieces of a chunk the handler sees: split on `;`, empty pieces dropped. */
  function Pieces(chunk: string): seq<string>
  {
    NonEmpty(Split(chunk, Terminator))
  }

  /** A stream of `;`-terminated non-empty records reaches the handler record by record. */
  lemma PiecesOfFramedRecords(records: seq<string>)
    requires forall i :: 0 <= i < |records| ==> Terminator !in records[i] && records[i] != []
    ensures Pieces(FrameAll(records)) == records
  {
    NonEmptySplitFrameAll(records);
  }

  /** What a received message can change: the pending table, the armed timers, the settled promises and the master flag. */
  datatype Inbox = Inbox(sendMessages: map<int, Pending>, armed: set<int>, settled: map<PromiseId, Outcome>, isMaster: bool)

  /**
   * One parsed message. An ACK for a pending id disarms and deletes it and
   * resolves its promise with the ACK's data; MASTER updates the flag;
   * anything else changes nothing.
   */
  function Receive(st: Inbox, m: Incoming): Inbox
  {
    match m
    case AckMsg(id, reply) =>
      if id in st.sendMessages then
        Inbox(st.sendMessages - {id}, st.armed - {id},
              Resolved(st.settled, st.sendMessages[id].promise, Acked(id, reply)), st.isMaster)
      else st
    case MasterMsg(flag, _) => st.(isMaster := MasterUpdate(st.isMaster, flag))
    case OtherMsg(_) => st
  }

  /** The messages of a chunk, in order. */
  function ReceiveAll(st: Inbox, ms: seq<Incoming>): Inbox
  {
    if ms == [] then st else Receive(ReceiveAll(st, ms[..|ms| - 1]), ms[|ms| - 1])
  }

  /**
   * Receiving never adds a pending request or a timer and never alters an
   * entry that stays, and a settled promise keeps its outcome.
   */
  lemma {:induction false} ReceiveAllMonotone(st: Inbox, ms: seq<Incoming>)
    ensures var r := ReceiveAll(st, ms);
            r.sendMessages.Keys <= st.sendMessages.Keys && r.armed <= st.armed &&
            (forall id :: id in r.sendMessages ==> r.sendMessages[id] == st.sendMessages[id]) &&
            st.settled.Keys <= r.settled.Keys &&
            (forall p :: p in st.settled ==> r.settled[p] == st.settled[p])
  {
    if ms != [] {
      ReceiveAllMonotone(st, ms[..|ms| - 1]);
    }
  }

  /** An id is answered once: its ACK deletes it, so a second ACK for it changes nothing. */
  lemma AckedOnce(st: Inbox, id: int, first: string, second: string)
    requires id in st.sendMessages
    ensures var r := Receive(st, AckMsg(id, first));
            id !in r.sendMessages && id !in r.armed &&
            r.settled == Resolved(st.settled, st.sendMessages[id].promise, Acked(id, first)) &&
            Receive(r, AckMsg(id, second)) == r
  {
  }

  /** The first `n` parse results, when each of them is a message. */
  function Parsed(ms: seq<Option<Incoming>>, n: nat): (r: seq<Incoming>)
    requires n <= |ms| && forall k :: 0 <= k < n ==> ms[k].Some?
    ensures |r| == n && forall k :: 0 <= k < n ==> ms[k] == Some(r[k])
  {
    seq(n, k requires 0 <= k < n => ms[k].value)
  }

  class ControlUtils {
    /** Usernames whose `controlSockets` entry holds a socket. */
    var connected: set<string>
    var sendMessages: map<int, Pending>
    var isMaster: bool
    /** Ids whose response timer is armed. */
    var armed: set<int>
    var written: seq<Sent>
    var settled: map<PromiseId, Outcome>
    /** Continuations of timed-out requests, keyed by the re-send's promise. */
    var waiters: map<PromiseId, Waiter>
    var nextPromise: PromiseId
    /** An uncaught `JSON.parse` error has been thrown out of the data handler. */
    var crashed: bool

    ghost predicate Valid()
      reads this
    {
      && 0 !in sendMessages
      && armed <= sendMessages.Keys
      && (forall id :: id in sendMessages ==> !sendMessages[id].ack && sendMessages[id].promise < nextPromise)
      && (forall p :: p in settled ==> p < nextPromise)
      && (forall p :: p in waiters ==> p < nextPromise && waiters[p].promise < nextPromise)
    }

    /** The fields a received message can change. */
    function Snapshot(): Inbox
      reads this
    {
      Inbox(sendMessages, armed, settled, isMaster)
    }

    constructor ()
      ensures Valid()
      ensures connected == {} && sendMessages == map[] && !isMaster && armed == {} && written == []
      ensures settled == map[] && waiters == map[] && nextPromise == 0 && !crashed
    {
      connected, sendMessages, isMaster, armed, written := {}, map[], false, {}, [];
      settled, waiters, nextPromise, crashed := map[], map[], 0, false;
    }

    /** `createControlSocket` has stored a socket for `username`. */
    method SocketUp(username: string)
      requires Valid()
      modifies this
      ensures Valid() && connected == old(connected) + {username}
      ensures sendMessages == old(sendMessages) && armed == old(armed) && written == old(written)
      ensures settled == old(settled) && waiters == old(waiters) && nextPromise == old(nextPromise)
      ensures isMaster == old(isMaster) && crashed == old(crashed)
    {
      connected := connected + {username};
    }

    /** The socket's `error` or `close` handler nulls its entry. */
    method SocketDown(username: string)
      requires Valid()
      modifies this
      ensures Valid() && connected == old(connected) - {username}
      ensures sendMessages == old(sendMessages) && armed == old(armed) && written == old(written)
      ensures settled == old(settled) && waiters == old(waiters) && nextPromise == old(nextPromise)
      ensures isMaster == old(isMaster) && crashed == old(crashed)
    {
      connected := connected - {username};
    }

    /**
     * `sendControlMessage`: a new promise. Without a socket for the
     * username it resolves `false` and nothing is recorded; otherwise the
     * request is written under a fresh id and recorded, unacknowledged,
     * with its timer armed.
     */
    method SendControlMessage(messageType: string, data: Payload, now: int, draws: seq<int>) returns (p: PromiseId)
      requires Valid()
      requires data.username in connected ==> exists k :: 0 <= k < |draws| && Usable(sendMessages.Keys, draws[k])
      requires forall k :: 0 <= k < |draws| ==> 0 <= draws[k] < IdRange
      modifies this
      ensures Valid()
      ensures p == old(nextPromise) && nextPromise == p + 1 && p !in old(settled)
      ensures data.username !in connected ==>
                settled == old(settled)[p := NoSocket] && sendMessages == old(sendMessages) &&
                armed == old(armed) && written == old(written)
      ensures data.username in connected ==>
                exists id :: Usable(old(sendMessages).Keys, id) && id < IdRange &&
                  sendMessages == old(sendMessages)[id := Pending(messageType, data, now, false, p)] &&
                  armed == old(armed) + {id} &&
                  written == old(written) + [Sent(messageType, id, data)] &&
                  settled == old(settled)
      ensures connected == old(connected) && waiters == old(waiters)
      ensures isMaster == old(isMaster) && crashed == old(crashed)
    {
      p := nextPromise;
      nextPromise := nextPromise + 1;
      if data.username !in connected {
        settled := settled[p := NoSocket];
        return;
      }
      var messageId := GenerateUniqueId(sendMessages.Keys, draws);
      armed := armed + {messageId};
      written := written + [Sent(messageType, messageId, data)];
      sendMessages := sendMessages[messageId := Pending(messageType, data, now, false, p)];
    }

    /**
     * The 500 ms timer of `id` fires. If the request is still pending it
     * is sent again, same type and data, under a new promise; the old entry
     * stays until that promise settles (see `Resume`). The source's guard
     * that the entry still exists always holds here: every path that
     * deletes an entry also disarms its timer.
     */
    method Timeout(id: int, now: int, draws: seq<int>) returns (retry: PromiseId)
      requires Valid() && id in armed
      requires sendMessages[id].data.username in connected ==>
                 exists k :: 0 <= k < |draws| && Usable(sendMessages.Keys, draws[k])
      requires forall k :: 0 <= k < |draws| ==> 0 <= draws[k] < IdRange
      modifies this
      ensures Valid()
      ensures retry == old(nextPromise) && nextPromise == old(nextPromise) + 1
      ensures waiters == old(waiters)[old(nextPromise) := Waiter(old(sendMessages[id].promise), id)]
      ensures id in sendMessages && sendMessages[id] == old(sendMessages[id])
      ensures old(sendMessages[id].data.username) !in connected ==>
                settled == old(settled)[old(nextPromise) := NoSocket] &&
                sendMessages == old(sendMessages) && written == old(written) && armed == old(armed) - {id}
      ensures old(sendMessages[id].data.username) in connected ==>
                exists newId :: newId != id && Usable(old(sendMessages).Keys, newId) && newId < IdRange &&
                  sendMessages == old(sendMessages)[newId := old(sendMessages[id]).(sentTime := now, promise := old(nextPromise))] &&
                  armed == old(armed) - {id} + {newId} &&
                  written == old(written) + [Sent(old(sendMessages[id].messageType), newId, old(sendMessages[id].data))] &&
                  settled == old(settled)
      ensures connected == old(connected) && isMaster == old(isMaster) && crashed == old(crashed)
    {
      armed := armed - {id};
      var entry := sendMessages[id];
      retry := SendControlMessage(entry.messageType, entry.data, now, draws);
      waiters := waiters[retry := Waiter(entry.promise, id)];
    }

    /**
     * The `await` of a re-send returns: the original promise resolves with
     * the same outcome (unless an ACK for the old id settled it first) and
     * the old id is deleted.
     */
    method Resume(p: PromiseId)
      requires Valid() && p in waiters && p in settled
      modifies this
      ensures Valid()
      ensures settled == Resolved(old(settled), old(waiters[p].promise), old(settled[p]))
      ensures sendMessages == old(sendMessages) - {old(waiters[p].oldId)}
      ensures waiters == old(waiters) - {p}
      ensures armed == old(armed) - {old(waiters[p].oldId)}
      ensures connected == old(connected) && written == old(written) && nextPromise == old(nextPromise)
      ensures isMaster == old(isMaster) && crashed == old(crashed)
    {
      var w := waiters[p];
      waiters := waiters - {p};
      settled := Resolved(settled, w.promise, settled[p]);
      sendMessages := sendMessages - {w.oldId};
      armed := armed - {w.oldId};
    }

    /**
     * `controlSocketDataReceivedHandler` on a parsed message. An ACK for a
     * pending id clears its timer, resolves its promise with the ACK's data
     * and deletes it; an ACK for any other id changes nothing. MASTER
     * updates the flag.
     */
    method HandleMessage(m: Incoming)
      requires Valid()
      modifies this
      ensures Valid()
      ensures Snapshot() == Receive(old(Snapshot()), m)
      ensures connected == old(connected) && written == old(written) && waiters == old(waiters)
      ensures nextPromise == old(nextPromise) && crashed == old(crashed)
    {
      match m
      case AckMsg(messageId, reply) =>
        if messageId in sendMessages {
          var entry := sendMessages[messageId];
          armed := armed - {messageId};
          settled := Resolved(settled, entry.promise, Acked(messageId, reply));
          sendMessages := sendMessages - {messageId};
        }
      case MasterMsg(flag, _) =>
        isMaster := MasterUpdate(isMaster, flag);
      case OtherMsg(_) =>
    }

    /**
     * The socket's `data` handler: the chunk is split on `;`, empty pieces
     * are dropped, and each piece is parsed and handled in order. A piece
     * that does not parse throws out of the handler: the pieces after it
     * are never handled. Returns how many pieces were handled.
     */
    method OnData(chunk: string, parse: string -> Option<Incoming>) returns (handled: nat)
      requires Valid()
      modifies this
      ensures Valid()
      ensures handled <= |Pieces(chunk)|
      ensures forall k :: 0 <= k < handled ==> parse(Pieces(chunk)[k]).Some?
      ensures handled < |Pieces(chunk)| ==> parse(Pieces(chunk)[handled]).None? && crashed
      ensures handled == |Pieces(chunk)| ==> crashed == old(crashed)
      ensures Snapshot() == ReceiveAll(old(Snapshot()), Parsed(Parses(Pieces(chunk), parse), handled))
      ensures connected == old(connected) && written == old(written) && waiters == old(waiters)
      ensures nextPromise == old(nextPromise)
    {
      handled := HandleAll(Parses(Pieces(chunk), parse));
    }

    /** The loop over a chunk's parse results; stops at the first piece that does not parse. */
    method HandleAll(messages: seq<Option<Incoming>>) returns (handled: nat)
      requires Valid()
      modifies this
      ensures Valid()
      ensures handled <= |messages|
      ensures forall k :: 0 <= k < handled ==> messages[k].Some?
      ensures handled < |messages| ==> messages[handled].None? && crashed
      ensures handled == |messages| ==> crashed == old(crashed)
      ensures Snapshot() == ReceiveAll(old(Snapshot()), Parsed(messages, handled))
      ensures connected == old(connected) && written == old(written) && waiters == old(waiters)
      ensures nextPromise == old(nextPromise)
    {
      handled := 0;
      while handled < |messages| && messages[handled].Some?
        invariant handled <= |messages|
        invariant Valid() && crashed == old(crashed)
        invariant forall k :: 0 <= k < handled ==> messages[k].Some?
        invariant Snapshot() == ReceiveAll(old(Snapshot()), Parsed(messages, handled))
        invariant connected == old(connected) && written == old(written) && waiters == old(waiters)
        invariant nextPromise == old(nextPromise)
      {
        assert Parsed(messages, handled + 1)[..handled] == Parsed(messages, handled);
        HandleMessage(messages[handled].value);
        handled := handled + 1;
      }
      if handled < |messages| {
        crashed := true;
      }
    }
  }
}
