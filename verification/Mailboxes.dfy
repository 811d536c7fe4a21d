/** One peer's outgoing queue, the coroutines that empty it, and its socket, at the
    granularity of the queue mutex and the socket mutex. The `offers`, `settled`, `popped`
    and `attempts` fields are histories: no operation reads them. */
module Mailboxes {
  import opened Messages

  datatype Fate = Popped | Cleared

  /** One call of queueMessage: the queue length it found and whether it took the message. */
  datatype Offer = Offer(msg: Message, held: nat, taken: bool)

  /** A taken message that has left the queue, and how. */
  datatype Settlement = Settlement(msg: Message, fate: Fate)

  /** A SendMessageCoroutine: about to run `act`, or waiting for one frame to be written. */
  datatype Drainer = Ready | Sending(msg: Message)

  datatype Attempt = Attempt(msg: Message, ok: bool)

  datatype Mailbox = Mailbox(
    limit: nat,
    pending: seq<Message>,     // oldest first
    active: bool,
    socket: bool,              // m_socket is not null
    spawning: bool,            // some caller of queueMessage owns the queue mutex, has set
                               // `active`, and has not yet looked at the socket
    drainers: seq<Drainer>,    // live coroutines
    offers: seq<Offer>,
    settled: seq<Settlement>,
    popped: seq<Message>,
    attempts: seq<Attempt>)

  function Fresh(limit: nat): Mailbox {
    Mailbox(limit, [], false, true, false, [], [], [], [], [])
  }

  // ----- the critical sections -----

  /** queueMessage up to the point where it would look at the socket. */
  function Offered(b: Mailbox, m: Message): Mailbox {
    if |b.pending| < b.limit then
      b.(pending := b.pending + [m],
         active := true,
         spawning := !b.active,
         offers := b.offers + [Offer(m, |b.pending|, true)])
    else
      b.(offers := b.offers + [Offer(m, |b.pending|, false)])
  }

  /** The nested critical section: start a coroutine unless the socket is gone. */
  function Spawned(b: Mailbox): Mailbox {
    b.(spawning := false, drainers := if b.socket then b.drainers + [Ready] else b.drainers)
  }

  /** A whole call of queueMessage that nothing interleaves with. */
  function Enqueue(b: Mailbox, m: Message): Mailbox {
    var o := Offered(b, m);
    if o.spawning then Spawned(o) else o
  }

  function Without<T>(s: seq<T>, i: nat): seq<T>
    requires i < |s|
  {
    s[..i] + s[i + 1..]
  }

  /** One run of SendMessageCoroutine::act up to the send. */
  function Turned(b: Mailbox, i: nat): Mailbox
    requires i < |b.drainers|
  {
    if b.pending == [] then
      b.(active := false, drainers := Without(b.drainers, i))
    else
      b.(pending := b.pending[1..],
         drainers := b.drainers[i := Sending(b.pending[0])],
         settled := b.settled + [Settlement(b.pending[0], Popped)],
         popped := b.popped + [b.pending[0]])
  }

  /** The send is over, well or badly: `repeat()` and `handleError` both lead back to `act`. */
  function Sent(b: Mailbox, i: nat, ok: bool): Mailbox
    requires i < |b.drainers| && b.drainers[i].Sending?
  {
    b.(drainers := b.drainers[i := Ready], attempts := b.attempts + [Attempt(b.drainers[i].msg, ok)])
  }

  function Disconnected(b: Mailbox): Mailbox {
    b.(socket := false)
  }

  function AllCleared(s: seq<Message>): seq<Settlement> {
    seq(|s|, i requires 0 <= i < |s| => Settlement(s[i], Cleared))
  }

  function Emptied(b: Mailbox): Mailbox {
    b.(pending := [], settled := b.settled + AllCleared(b.pending))
  }

  // ----- steps and runs -----

  datatype Step =
    | Offers(m: Message)
    | Spawns
    | Turns(i: nat)
    | Sends(i: nat, ok: bool)
    | Disconnects
    | Clears

  /** Which critical section may run: those of the queue mutex wait for `spawning` to end,
      and invalidateSocket clears the queue only after it has nulled the socket. */
  predicate Enabled(b: Mailbox, step: Step) {
    match step
    case Offers(_) => !b.spawning
    case Spawns => b.spawning
    case Turns(i) => !b.spawning && i < |b.drainers| && b.drainers[i].Ready?
    case Sends(i, _) => i < |b.drainers| && b.drainers[i].Sending?
    case Disconnects => true
    case Clears => !b.spawning && !b.socket
  }

  function Apply(b: Mailbox, step: Step): Mailbox
    requires Enabled(b, step)
  {
    match step
    case Offers(m) => Offered(b, m)
    case Spawns => Spawned(b)
    case Turns(i) => Turned(b, i)
    case Sends(i, ok) => Sent(b, i, ok)
    case Disconnects => Disconnected(b)
    case Clears => Emptied(b)
  }

  predicate IsRun(b: Mailbox, steps: seq<Step>)
    decreases |steps|
  {
    steps == [] || (Enabled(b, steps[0]) && IsRun(Apply(b, steps[0]), steps[1..]))
  }

  function End(b: Mailbox, steps: seq<Step>): Mailbox
    requires IsRun(b, steps)
    decreases |steps|
  {
    if steps == [] then b else End(Apply(b, steps[0]), steps[1..])
  }

  // ----- projections of the histories -----

  function OfferedMsgs(s: seq<Offer>): seq<Message> {
    seq(|s|, i requires 0 <= i < |s| => s[i].msg)
  }

  function SettledMsgs(s: seq<Settlement>): seq<Message> {
    seq(|s|, i requires 0 <= i < |s| => s[i].msg)
  }

  function AttemptMsgs(s: seq<Attempt>): seq<Message> {
    seq(|s|, i requires 0 <= i < |s| => s[i].msg)
  }

  /** The messages of the offers that were taken, or of those that were refused. */
  function Select(s: seq<Offer>, taken: bool): seq<Message> {
    if s == [] then [] else
      var front := Select(s[..|s| - 1], taken);
      if s[|s| - 1].taken == taken then front + [s[|s| - 1].msg] else front
  }

  function WithFate(s: seq<Settlement>, fate: Fate): seq<Message> {
    if s == [] then [] else
      var front := WithFate(s[..|s| - 1], fate);
      if s[|s| - 1].fate == fate then front + [s[|s| - 1].msg] else front
  }

  /** The messages that were written, or those whose write failed. */
  function Written(s: seq<Attempt>, ok: bool): seq<Message> {
    if s == [] then [] else
      var front := Written(s[..|s| - 1], ok);
      if s[|s| - 1].ok == ok then front + [s[|s| - 1].msg] else front
  }

  function InFlight(drainers: seq<Drainer>): seq<Message> {
    if |drainers| == 1 && drainers[0].Sending? then [drainers[0].msg] else []
  }

  /** What has been written, or attempted, on the socket. */
  function Wire(b: Mailbox): seq<Message> {
    AttemptMsgs(b.attempts)
  }

  lemma SelectAppend(s: seq<Offer>, x: Offer, taken: bool)
    ensures Select(s + [x], taken) == Select(s, taken) + (if x.taken == taken then [x.msg] else [])
  {
    assert (s + [x])[..|s|] == s;
  }

  lemma WithFateAppend(s: seq<Settlement>, x: Settlement, fate: Fate)
    ensures WithFate(s + [x], fate) == WithFate(s, fate) + (if x.fate == fate then [x.msg] else [])
  {
    assert (s + [x])[..|s|] == s;
  }

  lemma WrittenAppend(s: seq<Attempt>, x: Attempt, ok: bool)
    ensures Written(s + [x], ok) == Written(s, ok) + (if x.ok == ok then [x.msg] else [])
  {
    assert (s + [x])[..|s|] == s;
  }

  lemma {:induction false} WithFateCleared(s: seq<Settlement>, ms: seq<Message>)
    ensures WithFate(s + AllCleared(ms), Popped) == WithFate(s, Popped)
    ensures WithFate(s + AllCleared(ms), Cleared) == WithFate(s, Cleared) + ms
    decreases |ms|
  {
    if ms == [] {
      assert s + AllCleared(ms) == s;
    } else {
      var front, m := ms[..|ms| - 1], ms[|ms| - 1];
      WithFateCleared(s, front);
      WithFateAppend(s + AllCleared(front), Settlement(m, Cleared), Popped);
      WithFateAppend(s + AllCleared(front), Settlement(m, Cleared), Cleared);
      assert s + AllCleared(ms) == (s + AllCleared(front)) + [Settlement(m, Cleared)];
      assert ms == front + [m];
    }
  }

  // ----- the invariant -----

  /** Who drains the queue. */
  predicate Control(b: Mailbox) {
    && |b.drainers| <= 1
    && (b.drainers != [] ==> b.active && !b.spawning)
    && (b.spawning ==> b.active)
    && (!b.active ==> b.pending == [])
    && (b.socket && b.active && !b.spawning ==> |b.drainers| == 1)
    && |b.pending| <= b.limit
  }

  /** Where every message is. */
  predicate Ledger(b: Mailbox) {
    && (forall o :: o in b.offers ==> (o.taken <==> o.held < b.limit) && o.held <= b.limit)
    && Select(b.offers, true) == SettledMsgs(b.settled) + b.pending
    && b.popped == WithFate(b.settled, Popped)
    && b.popped == Wire(b) + InFlight(b.drainers)
    && (b.socket ==> forall x :: x in b.settled ==> x.fate == Popped)
  }

  predicate Inv(b: Mailbox) {
    Control(b) && Ledger(b)
  }

  lemma OfferKeepsLedger(b: Mailbox, m: Message)
    requires Inv(b)
    ensures Ledger(Offered(b, m))
  {
    var x := Offer(m, |b.pending|, |b.pending| < b.limit);
    SelectAppend(b.offers, x, true);
    hide Select, WithFate, SettledMsgs, Wire, InFlight;
    assert Offered(b, m).offers == b.offers + [x];
    assert SettledMsgs(b.settled) + (b.pending + [m]) == (SettledMsgs(b.settled) + b.pending) + [m];
  }

  lemma TurnKeepsLedger(b: Mailbox, i: nat)
    requires Inv(b) && i < |b.drainers| && b.drainers[i].Ready?
    ensures Ledger(Turned(b, i))
  {
  }

  lemma SendKeepsLedger(b: Mailbox, i: nat, ok: bool)
    requires Inv(b) && i < |b.drainers| && b.drainers[i].Sending?
    ensures Ledger(Sent(b, i, ok))
  {
  }

  lemma ClearKeepsLedger(b: Mailbox)
    requires Inv(b) && !b.socket
    ensures Ledger(Emptied(b))
  {
    WithFateCleared(b.settled, b.pending);
    assert SettledMsgs(b.settled + AllCleared(b.pending)) == SettledMsgs(b.settled) + b.pending;
  }

  lemma StepKeepsInv(b: Mailbox, step: Step)
    requires Inv(b) && Enabled(b, step)
    ensures Inv(Apply(b, step))
  {
    match step
    case Offers(m) => OfferKeepsLedger(b, m);
    case Spawns =>
    case Turns(i) => TurnKeepsLedger(b, i);
    case Sends(i, ok) => SendKeepsLedger(b, i, ok);
    case Disconnects =>
    case Clears => ClearKeepsLedger(b);
  }

  lemma {:induction false} RunKeepsInv(b: Mailbox, steps: seq<Step>)
    requires Inv(b) && IsRun(b, steps)
    ensures Inv(End(b, steps))
    decreases |steps|
  {
    if steps != [] {
      StepKeepsInv(b, steps[0]);
      RunKeepsInv(Apply(b, steps[0]), steps[1..]);
    }
  }

  lemma EnqueueKeepsInv(b: Mailbox, m: Message)
    requires Inv(b) && !b.spawning
    ensures Inv(Enqueue(b, m)) && !Enqueue(b, m).spawning
  {
    StepKeepsInv(b, Offers(m));
    if Offered(b, m).spawning {
      StepKeepsInv(Offered(b, m), Spawns);
    }
  }

  // ----- theorems over every run -----

  /** A single consumer, and no lost wakeup: whenever the queue mutex is free, an open socket
      with queued messages has exactly one live coroutine; and a live coroutine can always take its
      next step, be the socket open or not. The socket may have been nulled between any two steps. */
  lemma NoLostWakeup(limit: nat, steps: seq<Step>)
    requires IsRun(Fresh(limit), steps)
    ensures var b := End(Fresh(limit), steps);
      && |b.drainers| <= 1
      && (b.drainers != [] ==> b.active)
      && (b.pending != [] && b.socket && !b.spawning ==>
            |b.drainers| == 1 && (Enabled(b, Turns(0)) || Enabled(b, Sends(0, true))))
      && (b.drainers != [] ==> Enabled(b, Turns(0)) || (Enabled(b, Sends(0, true)) && Enabled(b, Sends(0, false))))
  {
    RunKeepsInv(Fresh(limit), steps);
  }

  /** Every taken message is popped, queued or cleared exactly once, in the order taken; while
      the socket has not been invalidated nothing is cleared; the queue never outgrows its
      limit; a message was refused exactly when the queue was full; and frames go out in the
      order in which messages were taken from the queue. */
  lemma Conservation(limit: nat, steps: seq<Step>)
    requires IsRun(Fresh(limit), steps)
    ensures var b := End(Fresh(limit), steps);
      && Select(b.offers, true) == SettledMsgs(b.settled) + b.pending
      && WithFate(b.settled, Popped) == b.popped == Wire(b) + InFlight(b.drainers)
      && (b.socket ==> Select(b.offers, true) == b.popped + b.pending)
      && |b.pending| <= limit
      && (forall o :: o in b.offers ==> (!o.taken <==> o.held == limit))
  {
    RunKeepsInv(Fresh(limit), steps);
    LimitIsFixed(Fresh(limit), steps);
    var b := End(Fresh(limit), steps);
    if b.socket {
      AllPopped(b.settled);
    }
  }

  lemma {:induction false} LimitIsFixed(b: Mailbox, steps: seq<Step>)
    requires IsRun(b, steps)
    ensures End(b, steps).limit == b.limit
    decreases |steps|
  {
    if steps != [] {
      LimitIsFixed(Apply(b, steps[0]), steps[1..]);
    }
  }

  lemma {:induction false} AllPopped(s: seq<Settlement>)
    requires forall x :: x in s ==> x.fate == Popped
    ensures WithFate(s, Popped) == SettledMsgs(s) && WithFate(s, Cleared) == []
  {
    if s != [] {
      AllPopped(s[..|s| - 1]);
      assert SettledMsgs(s) == SettledMsgs(s[..|s| - 1]) + [s[|s| - 1].msg];
    }
  }

  function TurnsIn(steps: seq<Step>): nat {
    if steps == [] then 0 else (if steps[0].Turns? then 1 else 0) + TurnsIn(steps[1..])
  }

  function Min(a: nat, b: nat): nat {
    if a < b then a else b
  }

  lemma DrainerMoves(b: Mailbox, step: Step)
    requires Control(b) && |b.drainers| == 1 && Enabled(b, step) && (step.Turns? || step.Sends?)
    ensures var c := Apply(b, step);
      && Control(c)
      && (c.drainers == [] <==> step.Turns? && b.pending == [])
      && (c.drainers == [] <==> !c.active)
      && (c.drainers != [] ==> |c.drainers| == 1)
      && if step.Turns? && b.pending != []
         then b.pending == [b.pending[0]] + c.pending && c.popped == b.popped + [b.pending[0]]
         else c.pending == b.pending && c.popped == b.popped
  {
  }

  lemma FrontAndRest<T>(x: T, s: seq<T>, k: nat)
    requires k <= |s|
    ensures ([x] + s)[..k + 1] == [x] + s[..k] && ([x] + s)[k + 1..] == s[k..]
  {
  }

  /** With nobody else touching the queue, a coroutine that starts on n messages pops one per
      turn, whether or not its sends fail, and is gone after exactly n + 1 turns. */
  lemma {:induction false} DrainerStops(b: Mailbox, steps: seq<Step>)
    requires Control(b) && |b.drainers| == 1 && IsRun(b, steps)
    requires forall i :: 0 <= i < |steps| ==> steps[i].Turns? || steps[i].Sends?
    ensures var c, t, n := End(b, steps), TurnsIn(steps), |b.pending|;
      && t <= n + 1
      && (c.drainers == [] <==> t == n + 1)
      && (c.drainers == [] <==> !c.active)
      && c.popped == b.popped + b.pending[..Min(t, n)]
      && c.pending == b.pending[Min(t, n)..]
    decreases |steps|
  {
    assert b.active;
    hide Apply, Enabled, Control;
    if steps != [] {
      var c, rest := Apply(b, steps[0]), steps[1..];
      DrainerMoves(b, steps[0]);
      if c.drainers == [] {
        NothingLeft(c, rest);
      } else {
        DrainerStops(c, rest);
        if steps[0].Turns? {
          var k := Min(TurnsIn(rest), |c.pending|);
          FrontAndRest(b.pending[0], c.pending, k);
          assert b.popped + [b.pending[0]] + c.pending[..k] == b.popped + ([b.pending[0]] + c.pending[..k]);
        }
      }
    }
  }

  lemma NothingLeft(b: Mailbox, steps: seq<Step>)
    requires b.drainers == [] && IsRun(b, steps)
    requires forall i :: 0 <= i < |steps| ==> steps[i].Turns? || steps[i].Sends?
    ensures steps == []
  {
  }

  /** After invalidateSocket no coroutine is ever started: once the last one has gone, nothing
      more is popped or written, whatever is still offered. */
  lemma {:induction false} NothingAfterInvalidation(b: Mailbox, steps: seq<Step>)
    requires !b.socket && b.drainers == [] && IsRun(b, steps)
    ensures var c := End(b, steps);
      !c.socket && c.drainers == [] && c.popped == b.popped && c.attempts == b.attempts
    decreases |steps|
  {
    if steps != [] {
      NothingAfterInvalidation(Apply(b, steps[0]), steps[1..]);
    }
  }

  /** Short of a clear, the queue grows at its back or is popped at its front. */
  lemma QueueMoves(b: Mailbox, step: Step)
    requires Enabled(b, step) && !step.Clears? && b.pending != []
    ensures var c := Apply(b, step);
      if step.Turns? then c.popped == b.popped + [b.pending[0]] && c.pending == b.pending[1..]
      else c.popped == b.popped && b.pending <= c.pending
  {
  }

  /** Whatever else happens short of a clear, a message with k messages ahead of it moves up one
      place with every pop and is the (k + 1)-th message popped from now on. */
  lemma {:induction false} PoppedInTurn(b: Mailbox, steps: seq<Step>, k: nat)
    requires IsRun(b, steps) && k < |b.pending|
    requires forall x :: x in steps ==> !x.Clears?
    ensures var c := End(b, steps);
      && |b.popped| <= |c.popped|
      && b.popped == c.popped[..|b.popped|]
      && var pops := |c.popped| - |b.popped|;
      && (pops <= k ==> k - pops < |c.pending| && c.pending[k - pops] == b.pending[k])
      && (pops > k ==> c.popped[|b.popped| + k] == b.pending[k])
    decreases |steps|
  {
    if steps != [] {
      var c := Apply(b, steps[0]);
      QueueMoves(b, steps[0]);
      hide Apply, Enabled;
      if steps[0].Turns? && k == 0 {
        PoppedStays(c, steps[1..]);
      } else {
        PoppedInTurn(c, steps[1..], if steps[0].Turns? then k - 1 else k);
      }
    }
  }

  lemma {:induction false} PoppedStays(b: Mailbox, steps: seq<Step>)
    requires IsRun(b, steps)
    ensures b.popped <= End(b, steps).popped
    decreases |steps|
  {
    if steps != [] {
      PoppedStays(Apply(b, steps[0]), steps[1..]);
    }
  }

  /** Steps of the coroutine that drains the queue, and of the caller that starts it. */
  predicate DrainerStep(step: Step) {
    step.Spawns? || step.Turns? || step.Sends?
  }

  /** From every reachable state with an open socket the backlog can be sent in full and in
      order, by the queue's own coroutine alone. */
  lemma {:induction false} BacklogCanBeSent(b: Mailbox) returns (steps: seq<Step>)
    requires Inv(b) && b.socket
    ensures IsRun(b, steps) && forall i :: 0 <= i < |steps| ==> DrainerStep(steps[i])
    ensures var c := End(b, steps);
      c.pending == [] && Wire(c) == b.popped + b.pending && c.offers == b.offers
    decreases 2 * |b.pending| + |InFlight(b.drainers)| + if b.spawning then 1 else 0
  {
    if b.pending == [] && InFlight(b.drainers) == [] {
      steps := [];
    } else {
      var step := if b.spawning then Spawns else if b.drainers[0].Sending? then Sends(0, true) else Turns(0);
      var c := Apply(b, step);
      StepKeepsInv(b, step);
      assert b.popped + b.pending == c.popped + c.pending;
      var rest := BacklogCanBeSent(c);
      steps := [step] + rest;
      assert steps[1..] == rest;
    }
  }

  // ----- order is inherited from the offers down to the wire -----

  lemma {:induction false} SelectIsOrderly(s: seq<Offer>, taken: bool)
    requires Orderly(OfferedMsgs(s))
    ensures Orderly(Select(s, taken))
    ensures forall m :: m in Select(s, taken) ==> m in OfferedMsgs(s)
  {
    if s != [] {
      var front, last := s[..|s| - 1], s[|s| - 1];
      assert OfferedMsgs(s) == OfferedMsgs(front) + [last.msg];
      OrderlyFront(OfferedMsgs(front), last.msg);
      SelectIsOrderly(front, taken);
      OrderlyAppend(Select(front, taken), last.msg);
    }
  }

  lemma {:induction false} WithFateIsOrderly(s: seq<Settlement>, fate: Fate)
    requires Orderly(SettledMsgs(s))
    ensures Orderly(WithFate(s, fate))
    ensures forall m :: m in WithFate(s, fate) ==> m in SettledMsgs(s)
  {
    if s != [] {
      var front, last := s[..|s| - 1], s[|s| - 1];
      assert SettledMsgs(s) == SettledMsgs(front) + [last.msg];
      OrderlyFront(SettledMsgs(front), last.msg);
      WithFateIsOrderly(front, fate);
      OrderlyAppend(WithFate(front, fate), last.msg);
    }
  }

  /** If what is offered to a peer is in order, so is what is popped for it, and all of that was
      offered; the frames on the socket are the same messages, but for one still in flight. */
  lemma PoppedIsOrderly(b: Mailbox)
    requires Inv(b) && Orderly(OfferedMsgs(b.offers))
    ensures Orderly(b.popped)
    ensures forall m :: m in b.popped ==> m in OfferedMsgs(b.offers)
    ensures Wire(b) <= b.popped
  {
    SelectIsOrderly(b.offers, true);
    var taken := Select(b.offers, true);
    var s := SettledMsgs(b.settled);
    assert forall i :: 0 <= i < |s| ==> s[i] == taken[i];
    WithFateIsOrderly(b.settled, Popped);
  }

  // ----- what a run does to every message, told without the operations -----

  /** What waits in a bounded first-in, first-out queue after one more step. */
  function Waiting(limit: nat, queue: seq<Message>, step: Step): seq<Message> {
    match step
    case Offers(m) => if |queue| < limit then queue + [m] else queue
    case Turns(_) => if queue == [] then [] else queue[1..]
    case Clears => []
    case _ => queue
  }

  function WaitingAtEnd(limit: nat, queue: seq<Message>, steps: seq<Step>): seq<Message>
    decreases |steps|
  {
    if steps == [] then queue else WaitingAtEnd(limit, Waiting(limit, queue, steps[0]), steps[1..])
  }

  /** What can become of a message at a queue. */
  datatype Fortune = Accepted | TurnedAway | Taken | ThrownAway

  /** The messages that one step brings that fortune. */
  function Met(limit: nat, queue: seq<Message>, step: Step, fortune: Fortune): seq<Message> {
    match fortune
    case Accepted => if step.Offers? && |queue| < limit then [step.m] else []
    case TurnedAway => if step.Offers? && |queue| >= limit then [step.m] else []
    case Taken => if step.Turns? && queue != [] then [queue[0]] else []
    case ThrownAway => if step.Clears? then queue else []
  }

  function MetInRun(limit: nat, queue: seq<Message>, steps: seq<Step>, fortune: Fortune): seq<Message>
    decreases |steps|
  {
    if steps == [] then [] else
      Met(limit, queue, steps[0], fortune) + MetInRun(limit, Waiting(limit, queue, steps[0]), steps[1..], fortune)
  }

  /** The messages that have met a fortune, by the mailbox's own histories. */
  function Recorded(b: Mailbox, fortune: Fortune): seq<Message> {
    match fortune
    case Accepted => Select(b.offers, true)
    case TurnedAway => Select(b.offers, false)
    case Taken => b.popped
    case ThrownAway => WithFate(b.settled, Cleared)
  }

  /** An offer met with room is queued and one met without is refused, whatever the message; only
      offers add or refuse anything. */
  lemma OfferAccount(b: Mailbox, step: Step)
    requires Enabled(b, step)
    ensures var c := Apply(b, step);
      && c.limit == b.limit
      && (step.Offers? && |b.pending| < b.limit ==>
            && c.pending == b.pending + [step.m] && c.active
            && c.offers == b.offers + [Offer(step.m, |b.pending|, true)]
            && Select(c.offers, true) == Select(b.offers, true) + [step.m]
            && Select(c.offers, false) == Select(b.offers, false))
      && (step.Offers? && |b.pending| >= b.limit ==>
            && c.pending == b.pending && c.active == b.active
            && c.offers == b.offers + [Offer(step.m, |b.pending|, false)]
            && Select(c.offers, true) == Select(b.offers, true)
            && Select(c.offers, false) == Select(b.offers, false) + [step.m])
      && (!step.Offers? ==> c.offers == b.offers)
  {
    if step.Offers? {
      var x := Offer(step.m, |b.pending|, |b.pending| < b.limit);
      SelectAppend(b.offers, x, true);
      SelectAppend(b.offers, x, false);
      hide Select;
    }
  }

  /** A turn takes the oldest message and nothing else leaves the queue, but that a clear leaves
      nothing in it and discards, in order, all that was there. */
  lemma RemovalAccount(b: Mailbox, step: Step)
    requires Enabled(b, step)
    ensures var c := Apply(b, step);
      && (step.Turns? && b.pending != [] ==>
            && c.pending == b.pending[1..] && c.popped == b.popped + [b.pending[0]]
            && c.drainers[step.i] == Sending(b.pending[0]))
      && (step.Turns? && b.pending == [] ==> c.pending == [] && c.popped == b.popped && !c.active)
      && (!step.Turns? ==> c.popped == b.popped)
      && (step.Clears? ==>
            && c.pending == []
            && WithFate(c.settled, Cleared) == WithFate(b.settled, Cleared) + b.pending)
      && (!step.Clears? ==> WithFate(c.settled, Cleared) == WithFate(b.settled, Cleared))
      && (step.Spawns? || step.Sends? || step.Disconnects? ==> c.pending == b.pending)
      && (c.socket <==> b.socket && !step.Disconnects?)
  {
    match step
    case Turns(_) =>
      if b.pending != [] {
        WithFateAppend(b.settled, Settlement(b.pending[0], Popped), Cleared);
      }
    case Clears =>
      WithFateCleared(b.settled, b.pending);
    case _ =>
  }

  lemma StepIsFifo(b: Mailbox, step: Step, fortune: Fortune)
    requires Enabled(b, step)
    ensures var c := Apply(b, step);
      && c.limit == b.limit && c.pending == Waiting(b.limit, b.pending, step)
      && Recorded(c, fortune) == Recorded(b, fortune) + Met(b.limit, b.pending, step, fortune)
  {
    OfferAccount(b, step);
    RemovalAccount(b, step);
    hide Apply, Enabled, Select, WithFate;
  }

  /** A queue is a bounded first-in, first-out queue. Over any run and for every message: what was
      offered while there was room was taken, and what was offered without was refused; each turn
      took the oldest message; each clear discarded all that was waiting; what is left is waiting. */
  lemma {:induction false} QueueIsFifo(b: Mailbox, steps: seq<Step>, fortune: Fortune)
    requires IsRun(b, steps)
    ensures var c := End(b, steps);
      && c.pending == WaitingAtEnd(b.limit, b.pending, steps)
      && Recorded(c, fortune) == Recorded(b, fortune) + MetInRun(b.limit, b.pending, steps, fortune)
    decreases |steps|
  {
    if steps != [] {
      StepIsFifo(b, steps[0], fortune);
      hide Apply, Enabled, Recorded, Met, Waiting;
      QueueIsFifo(Apply(b, steps[0]), steps[1..], fortune);
    }
  }

  /** The messages whose write is reported as well or badly ended in the course of the run. */
  function Reported(b: Mailbox, steps: seq<Step>, ok: bool): seq<Message>
    requires IsRun(b, steps)
    decreases |steps|
  {
    if steps == [] then [] else
      (if steps[0].Sends? && steps[0].ok == ok then [b.drainers[steps[0].i].msg] else [])
      + Reported(Apply(b, steps[0]), steps[1..], ok)
  }

  lemma StepIsReported(b: Mailbox, step: Step, ok: bool)
    requires Enabled(b, step)
    ensures Written(Apply(b, step).attempts, ok)
         == Written(b.attempts, ok) + if step.Sends? && step.ok == ok then [b.drainers[step.i].msg] else []
  {
    if step.Sends? {
      WrittenAppend(b.attempts, Attempt(b.drainers[step.i].msg, step.ok), ok);
    }
  }

  /** Over any run every report on a write is attributed to the message that was in flight. */
  lemma {:induction false} WritesAreRecorded(b: Mailbox, steps: seq<Step>, ok: bool)
    requires IsRun(b, steps)
    ensures Written(End(b, steps).attempts, ok) == Written(b.attempts, ok) + Reported(b, steps, ok)
    decreases |steps|
  {
    if steps != [] {
      StepIsReported(b, steps[0], ok);
      hide Apply, Written;
      WritesAreRecorded(Apply(b, steps[0]), steps[1..], ok);
    }
  }

  // ----- how events are lost -----

  /** In the course of the run an event is offered while the queue is full. */
  predicate RefusesEvent(b: Mailbox, steps: seq<Step>)
    requires IsRun(b, steps)
    decreases |steps|
  {
    steps != [] &&
    ((steps[0].Offers? && steps[0].m.Event? && |b.pending| >= b.limit) ||
     RefusesEvent(Apply(b, steps[0]), steps[1..]))
  }

  /** In the course of the run the queue is cleared with an event in it. */
  predicate ClearsEvent(b: Mailbox, steps: seq<Step>)
    requires IsRun(b, steps)
    decreases |steps|
  {
    steps != [] &&
    ((steps[0].Clears? && EventIds(b.pending) != []) || ClearsEvent(Apply(b, steps[0]), steps[1..]))
  }

  /** In the course of the run the write of an event fails. */
  predicate FailsEvent(b: Mailbox, steps: seq<Step>)
    requires IsRun(b, steps)
    decreases |steps|
  {
    steps != [] &&
    ((steps[0].Sends? && !steps[0].ok && b.drainers[steps[0].i].msg.Event?) ||
     FailsEvent(Apply(b, steps[0]), steps[1..]))
  }

  function RefusedEvents(b: Mailbox): seq<nat> {
    EventIds(Select(b.offers, false))
  }

  function ClearedEvents(b: Mailbox): seq<nat> {
    EventIds(WithFate(b.settled, Cleared))
  }

  function FailedEvents(b: Mailbox): seq<nat> {
    EventIds(Written(b.attempts, false))
  }

  /** The events that have reached the peer's socket. */
  function SentEvents(b: Mailbox): seq<nat> {
    EventIds(Written(b.attempts, true))
  }

  lemma StepFailsEvents(b: Mailbox, step: Step)
    requires Enabled(b, step)
    ensures FailedEvents(Apply(b, step)) == FailedEvents(b) +
              if step.Sends? && !step.ok && b.drainers[step.i].msg.Event? then [b.drainers[step.i].msg.eventId] else []
  {
    StepIsReported(b, step, false);
    if step.Sends? {
      EventIdsAppend(Written(b.attempts, false), b.drainers[step.i].msg);
    }
    hide Written;
  }

  /** Writes of events fail in exactly the runs in which such a write is reported as failed. */
  lemma {:induction false} EventsFailIff(b: Mailbox, steps: seq<Step>)
    requires IsRun(b, steps)
    ensures FailedEvents(End(b, steps)) != [] <==> FailedEvents(b) != [] || FailsEvent(b, steps)
    decreases |steps|
  {
    hide Apply, FailedEvents;
    if steps != [] {
      StepFailsEvents(b, steps[0]);
      EventsFailIff(Apply(b, steps[0]), steps[1..]);
    }
  }

  lemma StepLosesEvents(b: Mailbox, step: Step)
    requires Enabled(b, step)
    ensures RefusedEvents(Apply(b, step)) == RefusedEvents(b) +
              if step.Offers? && step.m.Event? && |b.pending| >= b.limit then [step.m.eventId] else []
    ensures ClearedEvents(Apply(b, step)) == ClearedEvents(b) + if step.Clears? then EventIds(b.pending) else []
  {
    match step
    case Offers(m) =>
      var x := Offer(m, |b.pending|, |b.pending| < b.limit);
      SelectAppend(b.offers, x, false);
      EventIdsAppend(Select(b.offers, false), m);
    case Spawns =>
    case Turns(i) =>
      if b.pending != [] {
        WithFateAppend(b.settled, Settlement(b.pending[0], Popped), Cleared);
      }
    case Sends(_, _) =>
    case Disconnects =>
    case Clears =>
      WithFateCleared(b.settled, b.pending);
      EventIdsConcat(WithFate(b.settled, Cleared), b.pending);
  }

  /** Events are refused, or discarded, in exactly the runs that offer one to a full queue, or
      clear the queue with one in it. */
  lemma {:induction false} EventsAreLostIff(b: Mailbox, steps: seq<Step>)
    requires IsRun(b, steps)
    ensures RefusedEvents(End(b, steps)) != [] <==> RefusedEvents(b) != [] || RefusesEvent(b, steps)
    ensures ClearedEvents(End(b, steps)) != [] <==> ClearedEvents(b) != [] || ClearsEvent(b, steps)
    decreases |steps|
  {
    hide Apply, Enabled, RefusedEvents, ClearedEvents;
    if steps != [] {
      StepLosesEvents(b, steps[0]);
      EventsAreLostIff(Apply(b, steps[0]), steps[1..]);
    }
  }
}
