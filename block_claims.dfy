/**
 * The block-claim server of control.js: a list of connected sockets, a list
 * of claimed block positions with the time and user that claimed them, and
 * one handler per message type. Each handler that answers schedules one
 * ACK; the ACK is written when its (random, 1-400 ms) delay expires unless
 * the socket has been destroyed by then.
 */
module BlockClaims {
  import opened JsArrays

  type SocketId = nat

  /** Claims expire after one minute. */
  const ClaimLifetime: int := 60000

  datatype Block = Block(x: int, y: int, z: int)

  datatype ClaimedBlock = ClaimedBlock(x: int, y: int, z: int, claimTime: int, username: string)

  /** The `type` and `data` of a parsed message; `Other` is any other type. */
  datatype Body =
    | Register(username: string)
    | ClaimBlock(username: string, x: int, y: int, z: int)
    | ReleaseBlock(username: string, x: int, y: int, z: int)
    | FindBlock(username: string, blockList: seq<Block>)
    | Other(kind: string)

  datatype Message = Message(id: int, body: Body)

  /** The message types that get an ACK. */
  predicate Answered(body: Body)
  {
    body.Register? || body.ReleaseBlock? || body.FindBlock?
  }

  /** The ack's `data`: only `messageId`, `data: null`, or the claimed position. */
  datatype AckData = NoData | NullData | Found(block: Block)

  datatype Ack = Ack(to: SocketId, messageId: int, data: AckData)

  function ClaimAt(x: int, y: int, z: int): ClaimedBlock -> bool
  {
    (c: ClaimedBlock) => c.x == x && c.y == y && c.z == z
  }

  /** No two claims on the same (x, y, z). */
  ghost predicate UniqueClaims(claims: seq<ClaimedBlock>)
  {
    forall a, b :: 0 <= a < b < |claims| ==>
      !(claims[a].x == claims[b].x && claims[a].y == claims[b].y && claims[a].z == claims[b].z)
  }

  /** `isUnclaimedBlock`: no claim sits at (x, y, z). */
  function IsUnclaimedBlock(claims: seq<ClaimedBlock>, x: int, y: int, z: int): (r: bool)
    ensures r <==> forall k :: 0 <= k < |claims| ==> !ClaimAt(x, y, z)(claims[k])
  {
    Find(claims, ClaimAt(x, y, z)).None?
  }

  function Unclaimed(claims: seq<ClaimedBlock>): Block -> bool
  {
    (b: Block) => IsUnclaimedBlock(claims, b.x, b.y, b.z)
  }

  /** `findUnclaimedBlock`: the first candidate no claim sits on, if any. */
  function FindUnclaimedBlock(claims: seq<ClaimedBlock>, blockList: seq<Block>): (r: Option<Block>)
    ensures r.None? <==> forall k :: 0 <= k < |blockList| ==> !IsUnclaimedBlock(claims, blockList[k].x, blockList[k].y, blockList[k].z)
    ensures r.Some? ==> exists i :: (0 <= i < |blockList| && blockList[i] == r.value &&
              forall k :: 0 <= k < i ==> !IsUnclaimedBlock(claims, blockList[k].x, blockList[k].y, blockList[k].z))
    ensures r.Some? ==> forall k :: 0 <= k < |claims| ==> !ClaimAt(r.value.x, r.value.y, r.value.z)(claims[k])
    ensures r.Some? ==> r.value in blockList && IsUnclaimedBlock(claims, r.value.x, r.value.y, r.value.z)
  {
    Find(blockList, Unclaimed(claims))
  }

  /** RELEASEBLOCK's `splice(findIndex(...), 1)`. */
  function Released(claims: seq<ClaimedBlock>, x: int, y: int, z: int): seq<ClaimedBlock>
  {
    Splice1(claims, FindIndex(claims, ClaimAt(x, y, z)))
  }

  /** A release finding its position removes the first claim there, whoever holds it. */
  lemma ReleaseFound(claims: seq<ClaimedBlock>, x: int, y: int, z: int)
    requires exists k :: 0 <= k < |claims| && ClaimAt(x, y, z)(claims[k])
    ensures Released(claims, x, y, z) == RemoveFirst(claims, ClaimAt(x, y, z))
    ensures |Released(claims, x, y, z)| == |claims| - 1
  {
  }

  /** A release finding nothing drops the last claim (`splice(-1, 1)`), or nothing when there is none. */
  lemma ReleaseMissing(claims: seq<ClaimedBlock>, x: int, y: int, z: int)
    requires forall k :: 0 <= k < |claims| ==> !ClaimAt(x, y, z)(claims[k])
    ensures claims != [] ==> Released(claims, x, y, z) == claims[..|claims| - 1]
    ensures claims == [] ==> Released(claims, x, y, z) == []
  {
  }

  /** With unique claims, a release of a claimed position leaves it unclaimed and keeps the rest. */
  lemma {:induction false} ReleaseClears(claims: seq<ClaimedBlock>, x: int, y: int, z: int)
    requires UniqueClaims(claims)
    requires exists k :: 0 <= k < |claims| && ClaimAt(x, y, z)(claims[k])
    ensures UniqueClaims(Released(claims, x, y, z))
    ensures IsUnclaimedBlock(Released(claims, x, y, z), x, y, z)
    ensures forall k :: 0 <= k < |claims| && !ClaimAt(x, y, z)(claims[k]) ==> claims[k] in Released(claims, x, y, z)
  {
    var i := FindIndex(claims, ClaimAt(x, y, z));
    RemoveAtKeepsUnique(claims, i);
    var r := claims[..i] + claims[i + 1..];
    forall k | 0 <= k < |r|
      ensures !ClaimAt(x, y, z)(r[k])
    {
      var k' := if k < i then k else k + 1;
      assert r[k] == claims[k'];
    }
    forall k | 0 <= k < |claims| && !ClaimAt(x, y, z)(claims[k])
      ensures claims[k] in r
    {
      if k < i {
        assert r[k] == claims[k];
      } else {
        assert r[k - 1] == claims[k];
      }
    }
  }

  lemma RemoveAtKeepsUnique(claims: seq<ClaimedBlock>, i: int)
    requires UniqueClaims(claims) && 0 <= i < |claims|
    ensures UniqueClaims(claims[..i] + claims[i + 1..])
  {
    var r := claims[..i] + claims[i + 1..];
    forall a, b | 0 <= a < b < |r|
      ensures !(r[a].x == r[b].x && r[a].y == r[b].y && r[a].z == r[b].z)
    {
      var a' := if a < i then a else a + 1;
      var b' := if b < i then b else b + 1;
      assert r[a] == claims[a'] && r[b] == claims[b'];
    }
  }

  /** Any release keeps the claims unique, found or not. */
  lemma ReleaseKeepsUnique(claims: seq<ClaimedBlock>, x: int, y: int, z: int)
    requires UniqueClaims(claims)
    ensures UniqueClaims(Released(claims, x, y, z))
  {
    var i := FindIndex(claims, ClaimAt(x, y, z));
    if i != -1 {
      RemoveAtKeepsUnique(claims, i);
    } else if claims != [] {
      RemoveAtKeepsUnique(claims, |claims| - 1);
      assert claims[..|claims| - 1] + claims[|claims|..] == claims[..|claims| - 1];
    }
  }

  /** FINDBLOCK's claim sits on a position nobody held, so claims stay unique. */
  lemma FindKeepsUnique(claims: seq<ClaimedBlock>, blockList: seq<Block>, now: int, username: string)
    requires UniqueClaims(claims)
    requires FindUnclaimedBlock(claims, blockList).Some?
    ensures var b := FindUnclaimedBlock(claims, blockList).value;
            UniqueClaims(claims + [ClaimedBlock(b.x, b.y, b.z, now, username)])
  {
  }

  /** The claims after one message at `now`: RELEASEBLOCK releases, FINDBLOCK claims its block, the rest change nothing. */
  function ClaimsAfter(claims: seq<ClaimedBlock>, body: Body, now: int): seq<ClaimedBlock>
  {
    match body
    case ReleaseBlock(_, x, y, z) => Released(claims, x, y, z)
    case FindBlock(username, blockList) =>
      (match FindUnclaimedBlock(claims, blockList)
       case Some(b) => claims + [ClaimedBlock(b.x, b.y, b.z, now, username)]
       case None => claims)
    case _ => claims
  }

  /** The ACK one message schedules, given the claims before it: none for CLAIMBLOCK and other types. */
  function AckFor(s: SocketId, m: Message, claims: seq<ClaimedBlock>): seq<Ack>
  {
    match m.body
    case Register(_) => [Ack(s, m.id, NoData)]
    case ReleaseBlock(_, _, _, _) => [Ack(s, m.id, NoData)]
    case FindBlock(_, blockList) =>
      (match FindUnclaimedBlock(claims, blockList)
       case Some(b) => [Ack(s, m.id, Found(b))]
       case None => [Ack(s, m.id, NullData)])
    case _ => []
  }

  /** Exactly the answered types get an ACK, one, to the sender under the message's id. */
  lemma AckForAnswered(s: SocketId, m: Message, claims: seq<ClaimedBlock>)
    ensures |AckFor(s, m, claims)| == if Answered(m.body) then 1 else 0
    ensures forall k :: 0 <= k < |AckFor(s, m, claims)| ==> AckFor(s, m, claims)[k].to == s && AckFor(s, m, claims)[k].messageId == m.id
  {
  }

  /** Every message keeps the claims unique. */
  lemma ClaimsAfterUnique(claims: seq<ClaimedBlock>, body: Body, now: int)
    requires UniqueClaims(claims)
    ensures UniqueClaims(ClaimsAfter(claims, body, now))
  {
    match body {
      case ReleaseBlock(_, x, y, z) =>
        ReleaseKeepsUnique(claims, x, y, z);
      case FindBlock(username, blockList) =>
        if FindUnclaimedBlock(claims, blockList).Some? {
          FindKeepsUnique(claims, blockList, now, username);
        }
      case _ =>
    }
  }

  /**
   * A FINDBLOCK answered with a position hands out a block nobody held, and
   * the sender now holds it from `now`; a null answer changes no claim.
   */
  lemma FoundIsClaimed(s: SocketId, m: Message, claims: seq<ClaimedBlock>, now: int)
    requires m.body.FindBlock?
    ensures var acks := AckFor(s, m, claims);
            var after := ClaimsAfter(claims, m.body, now);
            |acks| == 1 &&
            (acks[0].data.Found? ==>
               var b := acks[0].data.block;
               IsUnclaimedBlock(claims, b.x, b.y, b.z) && b in m.body.blockList &&
               after == claims + [ClaimedBlock(b.x, b.y, b.z, now, m.body.username)]) &&
            (!acks[0].data.Found? ==> acks[0].data == NullData && after == claims)
  {
    var r := FindUnclaimedBlock(claims, m.body.blockList);
    if r.Some? {
      assert AckFor(s, m, claims) == [Ack(s, m.id, Found(r.value))];
      assert ClaimsAfter(claims, m.body, now) == claims + [ClaimedBlock(r.value.x, r.value.y, r.value.z, now, m.body.username)];
    } else {
      assert AckFor(s, m, claims) == [Ack(s, m.id, NullData)];
    }
  }

  /** The sweep keeps a claim iff it was made less than a minute before `now`. */
  function Live(now: int): ClaimedBlock -> bool
  {
    (c: ClaimedBlock) => c.claimTime > now - ClaimLifetime
  }

  lemma SweepKeepsUnique(claims: seq<ClaimedBlock>, now: int)
    requires UniqueClaims(claims)
    ensures UniqueClaims(Filter(claims, Live(now)))
  {
    FilterKeepsUnique(claims, Live(now));
  }

  lemma {:induction false} FilterKeepsUnique(claims: seq<ClaimedBlock>, p: ClaimedBlock -> bool)
    requires UniqueClaims(claims)
    ensures UniqueClaims(Filter(claims, p))
  {
    if claims != [] {
      assert UniqueClaims(claims[1..]) by {
        forall a, b | 0 <= a < b < |claims[1..]|
          ensures !(claims[1..][a].x == claims[1..][b].x && claims[1..][a].y == claims[1..][b].y && claims[1..][a].z == claims[1..][b].z)
        {
          assert claims[1..][a] == claims[a + 1] && claims[1..][b] == claims[b + 1];
        }
      }
      FilterKeepsUnique(claims[1..], p);
      FilterMembers(claims[1..], p);
      var rest := Filter(claims[1..], p);
      forall k | 0 <= k < |rest|
        ensures !(claims[0].x == rest[k].x && claims[0].y == rest[k].y && claims[0].z == rest[k].z)
      {
        var j :| 0 <= j < |claims[1..]| && claims[1..][j] == rest[k];
        assert claims[j + 1] == rest[k];
      }
    }
  }

  /** A later sweep subsumes an earlier one: sweeping at `now` then at `later` is sweeping at `later`. */
  lemma SweepLaterSubsumes(claims: seq<ClaimedBlock>, now: int, later: int)
    requires now <= later
    ensures Filter(Filter(claims, Live(now)), Live(later)) == Filter(claims, Live(later))
  {
    FilterNarrower(claims, Live(now), Live(later));
  }

  /** `splice(indexOf(socket), 1)` on the socket list. */
  function Unlisted(sockets: seq<SocketId>, s: SocketId): seq<SocketId>
  {
    Splice1(sockets, FindIndex(sockets, (t: SocketId) => t == s))
  }

  /** Closing a listed socket removes its first entry. */
  lemma UnlistListed(sockets: seq<SocketId>, s: SocketId)
    requires s in sockets
    ensures var i := FindIndex(sockets, (t: SocketId) => t == s);
            0 <= i && sockets[i] == s && Unlisted(sockets, s) == sockets[..i] + sockets[i + 1..]
    ensures multiset(Unlisted(sockets, s)) == multiset(sockets) - multiset{s}
  {
    var i := FindIndex(sockets, (t: SocketId) => t == s);
    assert 0 <= i && sockets[i] == s;
    var pre, post := sockets[..i], sockets[i + 1..];
    assert Unlisted(sockets, s) == pre + post;
    assert sockets == pre + [s] + post;
    assert multiset(sockets) == multiset(pre) + multiset{s} + multiset(post);
  }

  /** Closing a socket that is no longer listed removes whichever socket is last. */
  lemma UnlistUnlisted(sockets: seq<SocketId>, s: SocketId)
    requires s !in sockets && sockets != []
    ensures Unlisted(sockets, s) == sockets[..|sockets| - 1]
  {
  }

  /** A socket that errors and then closes runs both handlers: the second one takes the last other socket. */
  lemma ErrorThenClose(a: SocketId, b: SocketId)
    requires a != b
    ensures Unlisted(Unlisted([b, a], a), a) == []
    ensures Unlisted([b, a], a) == [b]
  {
    assert FindIndex([b, a], (t: SocketId) => t == a) == 1;
    assert [b, a][..1] + [b, a][2..] == [b];
  }

  class ControlServer {
    /** `controlServerSockets`. */
    var sockets: seq<SocketId>
    /** Sockets whose `destroyed` flag is set. */
    var destroyed: set<SocketId>
    var claimedBlocks: seq<ClaimedBlock>
    /** Acks waiting for their delay to expire. */
    var scheduled: seq<Ack>
    /** Acks written, each as `{"type":"ACK","data":…};`. */
    var written: seq<Ack>

    ghost predicate Valid()
      reads this
    {
      UniqueClaims(claimedBlocks)
    }

    constructor ()
      ensures Valid()
      ensures sockets == [] && destroyed == {} && claimedBlocks == [] && scheduled == [] && written == []
    {
      sockets, destroyed, claimedBlocks := [], {}, [];
      scheduled, written := [], [];
    }

    /** A client connects. */
    method Connect(s: SocketId)
      modifies this
      ensures sockets == old(sockets) + [s]
      ensures destroyed == old(destroyed) - {s}
      ensures claimedBlocks == old(claimedBlocks) && scheduled == old(scheduled) && written == old(written)
    {
      sockets := sockets + [s];
      destroyed := destroyed - {s};
    }

    /** The socket's `close` or `error` handler: the socket is destroyed and unlisted. */
    method Closed(s: SocketId)
      modifies this
      ensures sockets == Unlisted(old(sockets), s)
      ensures destroyed == old(destroyed) + {s}
      ensures claimedBlocks == old(claimedBlocks) && scheduled == old(scheduled) && written == old(written)
    {
      var i := FindIndex(sockets, (t: SocketId) => t == s);
      sockets := Splice1(sockets, i);
      destroyed := destroyed + {s};
    }

    /**
     * `handleIncomingMessage`. REGISTER and RELEASEBLOCK schedule an ack
     * with only the id; RELEASEBLOCK first splices the first claim at the
     * position (or the last claim when there is none). FINDBLOCK claims the
     * first unclaimed candidate at time `now` and acks with it, or acks
     * with null. CLAIMBLOCK and other types do nothing.
     */
    method HandleIncomingMessage(s: SocketId, m: Message, now: int)
      requires Valid()
      modifies this
      ensures Valid()
      ensures m.body.Register? ==>
                claimedBlocks == old(claimedBlocks) && scheduled == old(scheduled) + [Ack(s, m.id, NoData)]
      ensures m.body.ReleaseBlock? ==>
                claimedBlocks == Released(old(claimedBlocks), m.body.x, m.body.y, m.body.z) &&
                scheduled == old(scheduled) + [Ack(s, m.id, NoData)]
      ensures m.body.FindBlock? ==>
                match FindUnclaimedBlock(old(claimedBlocks), m.body.blockList)
                case Some(b) =>
                  claimedBlocks == old(claimedBlocks) + [ClaimedBlock(b.x, b.y, b.z, now, m.body.username)] &&
                  scheduled == old(scheduled) + [Ack(s, m.id, Found(b))]
                case None =>
                  claimedBlocks == old(claimedBlocks) && scheduled == old(scheduled) + [Ack(s, m.id, NullData)]
      ensures m.body.ClaimBlock? || m.body.Other? ==>
                claimedBlocks == old(claimedBlocks) && scheduled == old(scheduled)
      ensures claimedBlocks == ClaimsAfter(old(claimedBlocks), m.body, now)
      ensures scheduled == old(scheduled) + AckFor(s, m, old(claimedBlocks))
      ensures sockets == old(sockets) && destroyed == old(destroyed) && written == old(written)
    {
      match m.body {
        case Register(_) =>
          scheduled := scheduled + [Ack(s, m.id, NoData)];
        case ClaimBlock(_, _, _, _) =>
        case ReleaseBlock(_, x, y, z) =>
          ReleaseBlock(s, m.id, x, y, z);
        case FindBlock(username, blockList) =>
          FindBlock(s, m.id, username, blockList, now);
        case Other(_) =>
      }
    }

    /** The RELEASEBLOCK case: splice the first claim at the position, then schedule the ack. */
    method ReleaseBlock(s: SocketId, id: int, x: int, y: int, z: int)
      requires Valid()
      modifies this
      ensures Valid()
      ensures claimedBlocks == Released(old(claimedBlocks), x, y, z)
      ensures scheduled == old(scheduled) + [Ack(s, id, NoData)]
      ensures sockets == old(sockets) && destroyed == old(destroyed) && written == old(written)
    {
      ReleaseKeepsUnique(claimedBlocks, x, y, z);
      var indexToDelete := FindIndex(claimedBlocks, ClaimAt(x, y, z));
      var claims := Splice1(claimedBlocks, indexToDelete);
      claimedBlocks, scheduled := claims, scheduled + [Ack(s, id, NoData)];
    }

    /** The FINDBLOCK case: claim the first unclaimed candidate and ack with it, or ack with null. */
    method FindBlock(s: SocketId, id: int, username: string, blockList: seq<Block>, now: int)
      requires Valid()
      modifies this
      ensures Valid()
      ensures match FindUnclaimedBlock(old(claimedBlocks), blockList)
              case Some(b) =>
                claimedBlocks == old(claimedBlocks) + [ClaimedBlock(b.x, b.y, b.z, now, username)] &&
                scheduled == old(scheduled) + [Ack(s, id, Found(b))]
              case None =>
                claimedBlocks == old(claimedBlocks) && scheduled == old(scheduled) + [Ack(s, id, NullData)]
      ensures sockets == old(sockets) && destroyed == old(destroyed) && written == old(written)
    {
      var unclaimedBlock := FindUnclaimedBlock(claimedBlocks, blockList);
      if unclaimedBlock.Some? {
        var b := unclaimedBlock.value;
        FindKeepsUnique(claimedBlocks, blockList, now, username);
        var claims := claimedBlocks + [ClaimedBlock(b.x, b.y, b.z, now, username)];
        claimedBlocks, scheduled := claims, scheduled + [Ack(s, id, Found(b))];
      } else {
        scheduled := scheduled + [Ack(s, id, NullData)];
      }
    }

    /**
     * The socket's `data` handler: the whole chunk is one JSON message;
     * a chunk that does not parse is dropped.
     */
    method OnData(s: SocketId, data: string, parse: string -> Option<Message>, now: int)
      requires Valid()
      modifies this
      ensures Valid()
      ensures parse(data).None? ==> claimedBlocks == old(claimedBlocks) && scheduled == old(scheduled)
      ensures parse(data).Some? ==>
                claimedBlocks == ClaimsAfter(old(claimedBlocks), parse(data).value.body, now) &&
                scheduled == old(scheduled) + AckFor(s, parse(data).value, old(claimedBlocks))
      ensures sockets == old(sockets) && destroyed == old(destroyed) && written == old(written)
    {
      var message := parse(data);
      if message.Some? {
        HandleIncomingMessage(s, message.value, now);
      }
    }

    /** The minute sweep: only claims younger than a minute stay. */
    method Sweep(now: int)
      requires Valid()
      modifies this
      ensures Valid()
      ensures claimedBlocks == Filter(old(claimedBlocks), Live(now))
      ensures sockets == old(sockets) && destroyed == old(destroyed)
      ensures scheduled == old(scheduled) && written == old(written)
    {
      SweepKeepsUnique(claimedBlocks, now);
      claimedBlocks := Filter(claimedBlocks, Live(now));
    }

    /** The delay of the k-th scheduled ack expires: it is written unless its socket is destroyed. */
    method DeliverAck(k: nat)
      requires k < |scheduled|
      modifies this
      ensures scheduled == old(scheduled[..k] + scheduled[k + 1..])
      ensures old(scheduled[k].to) in destroyed ==> written == old(written)
      ensures old(scheduled[k].to) !in destroyed ==> written == old(written) + [old(scheduled[k])]
      ensures sockets == old(sockets) && destroyed == old(destroyed) && claimedBlocks == old(claimedBlocks)
    {
      var ack := scheduled[k];
      scheduled := scheduled[..k] + scheduled[k + 1..];
      if ack.to in destroyed {
        return;
      }
      written := written + [ack];
    }
  }
}
