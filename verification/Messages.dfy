/** Values shared by every part of the server model: messages, configuration, and the
    order that any two messages offered to one peer have to respect. */
module Messages {

  datatype Option<+T> = None | Some(value: T)

  /** The game settings the server enforces (GameConfigDto). */
  datatype GameConfig = GameConfig(
    gameId: string,
    maxMessageSizeBytes: nat,
    maxQueuedMessages: nat,
    maxFailedPings: nat)

  /** The server's error codes (ErrorCodes). */
  datatype ErrorCode = BadRequest | GameNotFound | SessionNotFound | OperationNotPermitted | BadMessage | InvalidState

  /** Everything the server puts in a peer's queue. `issue` is the model's own serial number:
      it counts the messages that `sender` has asked the server to forward. */
  datatype Message =
    | Hello(peerId: int, isHost: bool)
    | Text(sender: int, issue: nat, data: Option<string>)
    | Event(eventId: nat, sender: int, issue: nat, data: Option<string>)
    | Joined(client: int)
    | Left(client: int)
  {
    predicate FromPeer() {
      Text? || Event?
    }
  }

  /** What has to hold of a message `a` offered to a peer before a message `b`:
      synchronized events keep their global order, messages of one sender keep the order in
      which that sender issued them, no client is announced or retired twice or retired
      before it is announced, and there is a single greeting. */
  predicate InOrder(a: Message, b: Message) {
    && (a.Event? && b.Event? ==> a.eventId < b.eventId)
    && (a.FromPeer() && b.FromPeer() && a.sender == b.sender ==> a.issue <= b.issue)
    && (a.Joined? && b.Joined? ==> a.client != b.client)
    && (a.Left? && (b.Joined? || b.Left?) ==> a.client != b.client)
    && !(a.Hello? && b.Hello?)
  }

  /** A stream in which every earlier message is in order with every later one. */
  ghost predicate Orderly(s: seq<Message>) {
    forall i, j :: 0 <= i < j < |s| ==> InOrder(s[i], s[j])
  }

  lemma OrderlyAppend(s: seq<Message>, m: Message)
    requires Orderly(s) && forall a :: a in s ==> InOrder(a, m)
    ensures Orderly(s + [m])
  {
  }

  lemma OrderlyFront(s: seq<Message>, m: Message)
    requires Orderly(s + [m])
    ensures Orderly(s) && forall a :: a in s ==> InOrder(a, m)
  {
    var t := s + [m];
    forall i, j | 0 <= i < j < |s|
      ensures InOrder(s[i], s[j])
    {
      assert InOrder(t[i], t[j]);
    }
    forall a | a in s
      ensures InOrder(a, m)
    {
      var i :| 0 <= i < |s| && s[i] == a;
      assert InOrder(t[i], t[|s|]);
    }
  }

  /** The ids of the synchronized events of a stream, in stream order. */
  function EventIds(s: seq<Message>): seq<nat> {
    if s == [] then [] else
      var front := EventIds(s[..|s| - 1]);
      if s[|s| - 1].Event? then front + [s[|s| - 1].eventId] else front
  }

  /** The ids from `lo` up to but not including `hi`. */
  function Range(lo: nat, hi: nat): (r: seq<nat>)
  {
    if lo < hi then Range(lo, hi - 1) + [hi - 1] else []
  }

  lemma EventIdsAppend(s: seq<Message>, m: Message)
    ensures EventIds(s + [m]) == EventIds(s) + (if m.Event? then [m.eventId] else [])
  {
  }

  lemma {:induction false} EventIdsConcat(a: seq<Message>, b: seq<Message>)
    ensures EventIds(a + b) == EventIds(a) + EventIds(b)
    decreases |b|
  {
    if b == [] {
      assert a + b == a;
    } else {
      var front, m := b[..|b| - 1], b[|b| - 1];
      EventIdsConcat(a, front);
      EventIdsAppend(a + front, m);
      EventIdsAppend(front, m);
      assert b == front + [m];
      assert a + b == (a + front) + [m];
    }
  }

  // ----- looking ids up -----

  /** What is found under the requested ids, in request order; null and unknown ids are skipped
      and repeated ids are found repeatedly. */
  function Find<T>(known: map<int, T>, ids: seq<Option<int>>): seq<T> {
    if ids == [] then [] else
      var front := Find(known, ids[..|ids| - 1]);
      var id := ids[|ids| - 1];
      if id.Some? && id.value in known then front + [known[id.value]] else front
  }

  function Occurrences<T(==)>(s: seq<T>, x: T): (n: nat)
    ensures n > 0 <==> x in s
  {
    multiset(s)[x]
  }

  /** How often an id occurs in a request. */
  function Requested(ids: seq<Option<int>>, id: int): nat {
    Occurrences(ids, Some(id))
  }

  /** What is known under a single id is found exactly as often as that id is requested. */
  lemma {:induction false} FindCounts<T>(known: map<int, T>, ids: seq<Option<int>>, id: int)
    requires id in known && forall i :: i in known && known[i] == known[id] ==> i == id
    ensures Occurrences(Find(known, ids), known[id]) == Requested(ids, id)
  {
    if ids != [] {
      var front, last := ids[..|ids| - 1], ids[|ids| - 1];
      FindCounts(known, front, id);
      assert ids == front + [last];
    }
  }

  /** A look-up goes through the request id by id, in order. */
  lemma {:induction false} FindConcat<T>(known: map<int, T>, a: seq<Option<int>>, b: seq<Option<int>>)
    ensures Find(known, a + b) == Find(known, a) + Find(known, b)
    decreases |b|
  {
    if b == [] {
      assert a + b == a;
    } else {
      var front, last := b[..|b| - 1], b[|b| - 1];
      assert (a + b)[..|a + b| - 1] == a + front && (a + b)[|a + b| - 1] == last;
      FindConcat(known, a, front);
    }
  }

  lemma FindOne<T>(known: map<int, T>, id: Option<int>)
    ensures Find(known, [id]) == if id.Some? && id.value in known then [known[id.value]] else []
  {
    assert [id][..0] == [];
  }

  lemma {:induction false} FindsKnown<T>(known: map<int, T>, ids: seq<Option<int>>)
    ensures forall x :: x in Find(known, ids) ==> x in known.Values
  {
    if ids != [] {
      FindsKnown(known, ids[..|ids| - 1]);
    }
  }

  lemma {:induction false} DistinctOccur<T>(s: seq<T>, x: T)
    requires forall i, j :: 0 <= i < j < |s| ==> s[i] != s[j]
    ensures Occurrences(s, x) == if x in s then 1 else 0
  {
    if s != [] {
      DistinctOccur(s[1..], x);
      assert s == [s[0]] + s[1..];
    }
  }

  lemma OccurrencesFirst<T>(s: seq<T>, x: T)
    requires s != []
    ensures Occurrences(s, x) == (if s[0] == x then 1 else 0) + Occurrences(s[1..], x)
  {
    assert s == [s[0]] + s[1..];
  }

  lemma OccurrencesLast<T>(s: seq<T>, y: T, x: T)
    ensures Occurrences(s + [y], x) == Occurrences(s, x) + if x == y then 1 else 0
  {
  }

  lemma OccurrencesNext<T>(s: seq<T>, n: nat, x: T)
    requires n < |s|
    ensures Occurrences(s[..n + 1], x) == Occurrences(s[..n], x) + if x == s[n] then 1 else 0
  {
    assert s[..n + 1] == s[..n] + [s[n]];
  }
}
