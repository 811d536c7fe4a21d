/** Reassembly of a message from its fragments (section 5.4 of RFC 6455). The socket hands over
    each fragment as a non-empty frame and marks the end of the message with an empty one. */
module Frames {

  newtype Byte = x: int | 0 <= x < 256

  type Frame = seq<Byte>

  datatype Outcome = Rejected | Stored | Complete(text: seq<Byte>)

  datatype Fed = Fed(buffer: seq<Byte>, outcome: Outcome)

  /** One call of readMessage with the given buffer. */
  function Feed(buffer: seq<Byte>, limit: nat, frame: Frame): Fed {
    if |buffer| + |frame| > limit then Fed(buffer, Rejected)
    else if frame == [] then Fed([], Complete(buffer))
    else Fed(buffer + frame, Stored)
  }

  datatype Transcript = Transcript(buffer: seq<Byte>, outcomes: seq<Outcome>)

  /** Consecutive calls. */
  function FeedAll(buffer: seq<Byte>, limit: nat, frames: seq<Frame>): (t: Transcript)
    ensures |t.outcomes| == |frames|
    decreases |frames|
  {
    if frames == [] then Transcript(buffer, []) else
      var first := Feed(buffer, limit, frames[0]);
      var rest := FeedAll(first.buffer, limit, frames[1..]);
      Transcript(rest.buffer, [first.outcome] + rest.outcomes)
  }

  function Concat(frames: seq<Frame>): seq<Byte> {
    if frames == [] then [] else frames[0] + Concat(frames[1..])
  }

  /** The bytes that get past the size check when the buffer already holds `held` of them. */
  function Kept(held: nat, limit: nat, frames: seq<Frame>): seq<Byte>
    decreases |frames|
  {
    if frames == [] then []
    else if held + |frames[0]| > limit then Kept(held, limit, frames[1..])
    else frames[0] + Kept(held + |frames[0]|, limit, frames[1..])
  }

  predicate Fragments(frames: seq<Frame>) {
    forall i :: 0 <= i < |frames| ==> frames[i] != []
  }

  predicate NoneRejected(outcomes: seq<Outcome>) {
    forall i :: 0 <= i < |outcomes| ==> !outcomes[i].Rejected?
  }

  /** The texts handed to the parser. */
  function Texts(outcomes: seq<Outcome>): seq<seq<Byte>> {
    if outcomes == [] then [] else
      (if outcomes[0].Complete? then [outcomes[0].text] else []) + Texts(outcomes[1..])
  }

  /** The buffer stays within the limit, whatever arrives. */
  lemma {:induction false} BufferBound(buffer: seq<Byte>, limit: nat, frames: seq<Frame>)
    requires |buffer| <= limit
    ensures |FeedAll(buffer, limit, frames).buffer| <= limit
    decreases |frames|
  {
    if frames != [] {
      BufferBound(Feed(buffer, limit, frames[0]).buffer, limit, frames[1..]);
    }
  }

  /** The call that ends a message is never rejected, even after rejected frames. */
  lemma EndIsNeverRejected(limit: nat, frames: seq<Frame>)
    ensures Feed(FeedAll([], limit, frames).buffer, limit, []).outcome.Complete?
  {
    BufferBound([], limit, frames);
  }

  lemma RejectedAtOnceOrLater(first: Outcome, rest: seq<Outcome>)
    ensures NoneRejected([first] + rest) <==> !first.Rejected? && NoneRejected(rest)
  {
    var all := [first] + rest;
    if NoneRejected(all) {
      assert !all[0].Rejected?;
    }
    assert forall i :: 0 <= i < |rest| ==> rest[i] == all[i + 1];
    assert forall i :: 1 <= i < |all| ==> all[i] == rest[i - 1];
  }

  lemma {:induction false} FeedFragments(buffer: seq<Byte>, limit: nat, frames: seq<Frame>)
    requires |buffer| <= limit && Fragments(frames)
    ensures var t := FeedAll(buffer, limit, frames);
      && t.buffer == buffer + Kept(|buffer|, limit, frames)
      && Texts(t.outcomes) == []
      && (NoneRejected(t.outcomes) <==> |buffer| + |Concat(frames)| <= limit)
      && (|buffer| + |Concat(frames)| <= limit ==> Kept(|buffer|, limit, frames) == Concat(frames))
    decreases |frames|
  {
    if frames != [] {
      var first := Feed(buffer, limit, frames[0]);
      FeedFragments(first.buffer, limit, frames[1..]);
      var rest := FeedAll(first.buffer, limit, frames[1..]);
      RejectedAtOnceOrLater(first.outcome, rest.outcomes);
      hide NoneRejected;
      assert ([first.outcome] + rest.outcomes)[1..] == rest.outcomes;
    }
  }

  lemma {:induction false} FeedAllConcat(buffer: seq<Byte>, limit: nat, a: seq<Frame>, b: seq<Frame>)
    ensures var x := FeedAll(buffer, limit, a);
      var y := FeedAll(x.buffer, limit, b);
      FeedAll(buffer, limit, a + b) == Transcript(y.buffer, x.outcomes + y.outcomes)
    decreases |a|
  {
    if a == [] {
      assert a + b == b;
    } else {
      FeedAllConcat(Feed(buffer, limit, a[0]).buffer, limit, a[1..], b);
      assert (a + b)[1..] == a[1..] + b;
    }
  }

  lemma {:induction false} TextsConcat(a: seq<Outcome>, b: seq<Outcome>)
    ensures Texts(a + b) == Texts(a) + Texts(b)
    decreases |a|
  {
    if a == [] {
      assert a + b == b;
    } else {
      TextsConcat(a[1..], b);
      assert (a + b)[1..] == a[1..] + b && (a + b)[0] == a[0] && a + b != [];
    }
  }

  /** However a byte string is split into frames, it comes out whole with nothing rejected
      exactly when it fits; otherwise the parser sees just the frames that fitted. Either way
      the buffer is empty again. */
  lemma Reassembly(limit: nat, frames: seq<Frame>)
    requires Fragments(frames)
    ensures var t := FeedAll([], limit, frames + [[]]);
      && t.buffer == []
      && Texts(t.outcomes) == [Kept(0, limit, frames)]
      && (NoneRejected(t.outcomes) <==> |Concat(frames)| <= limit)
      && (Texts(t.outcomes) == [Concat(frames)] <==> |Concat(frames)| <= limit)
  {
    var x := FeedAll([], limit, frames);
    FeedFragments([], limit, frames);
    BufferBound([], limit, frames);
    FeedAllConcat([], limit, frames, [[]]);
    var y := FeedAll(x.buffer, limit, [[]]);
    assert y == Transcript([], [Complete(x.buffer)]);
    assert x.buffer == Kept(0, limit, frames);
    TextsConcat(x.outcomes, y.outcomes);
    var t := FeedAll([], limit, frames + [[]]);
    assert t.outcomes == x.outcomes + [Complete(x.buffer)];
    assert NoneRejected(x.outcomes) ==> NoneRejected(t.outcomes);
    assert NoneRejected(t.outcomes) ==> NoneRejected(x.outcomes) by {
      assert forall i :: 0 <= i < |x.outcomes| ==> t.outcomes[i] == x.outcomes[i];
    }
  }

  /** A connection's whole traffic: the fragments of each message followed by its end mark. */
  function Traffic(messages: seq<seq<Frame>>): seq<Frame> {
    if messages == [] then [] else messages[0] + [[]] + Traffic(messages[1..])
  }

  function Whole(messages: seq<seq<Frame>>): seq<seq<Byte>> {
    seq(|messages|, i requires 0 <= i < |messages| => Concat(messages[i]))
  }

  lemma FirstAndOthersFit(limit: nat, messages: seq<seq<Frame>>)
    requires messages != []
    ensures forall i :: 0 <= i < |messages| - 1 ==> messages[1..][i] == messages[i + 1]
    ensures (forall i :: 0 <= i < |messages| ==> |Concat(messages[i])| <= limit) <==>
              |Concat(messages[0])| <= limit
              && forall i :: 0 <= i < |messages| - 1 ==> |Concat(messages[1..][i])| <= limit
  {
    hide Concat;
    assert forall i :: 1 <= i < |messages| ==> messages[i] == messages[1..][i - 1];
  }

  /** Round trip over a connection: every message is parsed, each is parsed separately, and all
      arrive unchanged exactly when all of them fit. */
  lemma {:induction false} TrafficRoundTrip(limit: nat, messages: seq<seq<Frame>>)
    requires forall i :: 0 <= i < |messages| ==> Fragments(messages[i])
    ensures var t := FeedAll([], limit, Traffic(messages));
      && t.buffer == []
      && |Texts(t.outcomes)| == |messages|
      && (Texts(t.outcomes) == Whole(messages) <==>
            forall i :: 0 <= i < |messages| ==> |Concat(messages[i])| <= limit)
    decreases |messages|
  {
    hide NoneRejected, Kept, Concat, Feed;
    if messages != [] {
      var first, rest := messages[0] + [[]], messages[1..];
      FirstAndOthersFit(limit, messages);
      TrafficRoundTrip(limit, rest);
      Reassembly(limit, messages[0]);
      FeedAllConcat([], limit, first, Traffic(rest));
      var x, y := FeedAll([], limit, first), FeedAll([], limit, Traffic(rest));
      TextsConcat(x.outcomes, y.outcomes);
      var all := Texts(x.outcomes) + Texts(y.outcomes);
      assert all[0] == Texts(x.outcomes)[0] && all[1..] == Texts(y.outcomes);
      assert Whole(messages)[0] == Concat(messages[0]) && Whole(messages)[1..] == Whole(rest);
      hide FeedAll, Texts, Traffic, Whole;
      assert all == Whole(messages) <==> all[0] == Concat(messages[0]) && all[1..] == Whole(rest);
    }
  }
}
