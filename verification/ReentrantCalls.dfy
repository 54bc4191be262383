/**
  The public calls of a client whose stream can be read in the middle of a send. Two things hold
  of them. Whatever is read and however the calls nest, the queue ends up empty and no nonce goes
  out on a stream that it did not come on. And as long as no response provokes a reply, the client
  is where a legal run of `MuxModel` is, its log apart from nonces and versions included.
 */
module ReentrantCalls {
  import opened ResourceNames
  import opened MuxModel
  import opened MuxInvariant
  import opened MuxProduct
  import opened MuxHistory
  import opened MuxConvergence
  import opened MuxWire
  import opened ReentrantModel

  /** What a call comes to: the state, what is left to read, and whether every `pop` met an item. */
  datatype Outcome = Outcome(s: State, inbox: seq<Response>, ok: bool)

  ghost function Queued(s: State, item: TypeUrl, inbox: seq<Response>): Outcome {
    var s1 := EnsureApi(s, item);
    if Streaming(s) && s1.apis[item].pauses == 0 then
      var q := s.queue + [item];
      Outcome(Flat(s1, q, inbox), [], Provoked(EnsureApi(s1, q[0]), inbox) == [])
    else
      Outcome(QueueDiscoveryRequest(s, item), inbox, true)
  }

  ghost function Received(s: State, m: Response, inbox: seq<Response>): Outcome {
    if Streaming(s) && Provoking(s, m) then Queued(Heard(s, m), m.typeUrl, inbox)
    else Outcome(OnDiscoveryResponse(s, m), inbox, true)
  }

  ghost function Added(s: State, t: TypeUrl, w: Watch, inbox: seq<Response>): Outcome {
    Queued(Subscribe(PushWatch(s, t, w), t), t, inbox)
  }

  ghost function Destroyed(s: State, t: TypeUrl, id: nat, inbox: seq<Response>): Outcome {
    var s1 := EraseWatch(s, t, id);
    if ResourcesOf(ApiOf(s, t).watches, id) != {} then Queued(s1, t, inbox) else Outcome(s1, inbox, true)
  }

  ghost function Updated(s: State, t: TypeUrl, w: Watch, inbox: seq<Response>): Outcome {
    var o := Destroyed(s, t, w.id, inbox);
    if o.ok then Queued(PushWatch(o.s, t, w), t, o.inbox) else o
  }

  /** The loop over `subscriptions_` from position `i`, up to the first `pop` that fails. */
  ghost function AllQueued(s: State, i: nat, inbox: seq<Response>): Outcome
    requires s.queue == [] && i <= |s.subs|
    decreases |Unsubscribed(s)|, |s.subs| - i
  {
    if i == |s.subs| then
      Outcome(s, inbox, true)
    else
      var o := Queued(s, s.subs[i], inbox);
      QueuedKeepsMeasure(s, s.subs[i], inbox);
      if o.ok then AllQueued(o.s, i + 1, o.inbox) else o
  }

  /** `arriving` is what the server sends on the new stream. */
  ghost function Established(s: State, arriving: seq<Response>): Outcome {
    AllQueued(Opener(s), 0, arriving)
  }

  // ---- With no reply provoked, reading is hearing ----

  ghost function HearAll(s: State, inbox: seq<Response>): State
    decreases |inbox|
  {
    if inbox == [] then s else HearAll(Heard(s, inbox[0]), inbox[1..])
  }

  lemma {:induction false} HearAllKeeps(s: State, inbox: seq<Response>)
    ensures var s' := HearAll(s, inbox);
            && SameShape(s, s') && s'.queue == s.queue && s'.log == s.log && s'.subs == s.subs && s'.first == s.first
            && forall t :: ApiOf(s', t).subscribed == ApiOf(s, t).subscribed
    decreases |inbox|
  {
    if inbox != [] {
      HeardShape(s, inbox[0]);
      HeardKeeps(s, inbox[0]);
      hide Heard;
      HearAllKeeps(Heard(s, inbox[0]), inbox[1..]);
    }
  }

  lemma HeardKeeps(s: State, m: Response)
    ensures Heard(s, m).subs == s.subs && Heard(s, m).first == s.first
    ensures forall t :: ApiOf(Heard(s, m), t).subscribed == ApiOf(s, t).subscribed
  {
  }

  lemma {:induction false} InterleavedIsHearAll(x: State, t: TypeUrl, inbox: seq<Response>)
    requires Provoked(x, inbox) == []
    ensures Interleaved(x, t, inbox) == HearAll(x, inbox)
    decreases |inbox|
  {
    if inbox != [] {
      HeardShape(x, inbox[0]);
      hide Heard;
      ProvokedByShape(x, Heard(x, inbox[0]), inbox[1..]);
      InterleavedIsHearAll(Heard(x, inbox[0]), t, inbox[1..]);
    }
  }

  lemma QueuedSilently(s: State, item: TypeUrl, inbox: seq<Response>)
    requires Streaming(s) && s.queue == [] && ApiOf(s, item).pauses == 0
    ensures var o := Queued(s, item, inbox);
            && o.inbox == [] && o.s.queue == []
            && (o.ok <==> Provoked(EnsureApi(s, item), inbox) == [])
            && (o.ok ==> o.s == HearAll(QueueDiscoveryRequest(s, item), inbox))
  {
    var s1, q := EnsureApi(s, item), s.queue + [item];
    EnsureKnown(s1, item);
    hide SendDiscoveryRequest;
    SendShape(s, item);
    var x := SendDiscoveryRequest(s1, item);
    assert q == [item] && s1.(queue := []) == s1;
    ProvokedByShape(s1, x, inbox);
    DrainedQueue(s1, q, inbox);
    QueueIsSend(s, item);
    if Provoked(s1, inbox) == [] {
      InterleavedIsHearAll(x, item, inbox);
      assert q[1..] + Provoked(s1, inbox) == [];
    }
  }

  lemma QueueIsSend(s: State, item: TypeUrl)
    requires Streaming(s) && s.queue == [] && ApiOf(s, item).pauses == 0
    ensures QueueDiscoveryRequest(s, item) == SendDiscoveryRequest(EnsureApi(s, item), item)
  {
    var s1 := EnsureApi(s, item).(queue := [item]);
    assert s1 == EnsureApi(s, item).(queue := s.queue + [item]);
    SendIgnoresQueue(EnsureApi(s, item), [item], item);
    assert DrainRequests(s1) == SendDiscoveryRequest(s1, item).(queue := []);
  }

  lemma QueuedKeepsMeasure(s: State, t: TypeUrl, inbox: seq<Response>)
    requires s.queue == [] && t in s.subs
    ensures var o := Queued(s, t, inbox);
            && o.s.queue == []
            && (o.ok ==>
                  && |o.s.subs| >= |s.subs|
                  && (|Unsubscribed(o.s)| < |Unsubscribed(s)|
                      || (|Unsubscribed(o.s)| == |Unsubscribed(s)| && o.s.subs == s.subs)))
  {
    var o, s' := Queued(s, t, inbox), QueueDiscoveryRequest(s, t);
    QueueKeepsMeasure(s, t);
    if Streaming(s) && ApiOf(s, t).pauses == 0 {
      QueuedSilently(s, t, inbox);
      HearAllKeeps(s', inbox);
      hide Queued, QueueDiscoveryRequest;
      if o.ok {
        assert Unsubscribed(o.s) == Unsubscribed(s');
      }
    }
  }

  lemma QueuedNothingToRead(s: State, t: TypeUrl)
    requires s.queue == []
    ensures Queued(s, t, []) == Outcome(QueueDiscoveryRequest(s, t), [], true)
  {
    if Streaming(s) && ApiOf(s, t).pauses == 0 {
      QueuedSilently(s, t, []);
      hide QueueDiscoveryRequest, Queued;
    }
  }

  lemma {:induction false} AllQueuedNothingToRead(s: State, i: nat)
    requires s.queue == [] && i <= |s.subs|
    ensures AllQueued(s, i, []) == Outcome(QueueSubscriptions(s, i), [], true)
    decreases |Unsubscribed(s)|, |s.subs| - i
  {
    if i < |s.subs| {
      QueuedNothingToRead(s, s.subs[i]);
      QueueKeepsMeasure(s, s.subs[i]);
      hide Queued, QueueDiscoveryRequest;
      AllQueuedNothingToRead(QueueDiscoveryRequest(s, s.subs[i]), i + 1);
    }
  }

  // ---- No nonce leaves the stream it came on, whatever is provoked ----

  /** A response and the stream it came on. */
  datatype Arrival = Arrival(stream: nat, message: Response)

  function Stamped(stream: nat, inbox: seq<Response>): (r: seq<Arrival>)
    ensures |r| == |inbox| && forall i | 0 <= i < |inbox| :: r[i] == Arrival(stream, inbox[i])
  {
    seq(|inbox|, i requires 0 <= i < |inbox| => Arrival(stream, inbox[i]))
  }

  /** A nonce for `t` is empty or came on `stream`. */
  ghost predicate Came(arrivals: seq<Arrival>, stream: nat, t: TypeUrl, nonce: string) {
    nonce == "" || exists a :: a in arrivals && a.stream == stream && a.message.typeUrl == t && a.message.nonce == nonce
  }

  /** Every nonce held came on this stream, every nonce written on the stream it was written on. */
  ghost predicate Safe(s: State, arrivals: seq<Arrival>) {
    && (forall t | t in s.apis :: Came(arrivals, s.epoch, t, s.apis[t].request.responseNonce))
    && (forall i | 0 <= i < |s.log| ::
          Came(arrivals, s.log[i].stream, s.log[i].item, s.log[i].request.responseNonce))
  }

  ghost predicate Covers(arrivals: seq<Arrival>, stream: nat, inbox: seq<Response>) {
    forall i | 0 <= i < |inbox| :: Arrival(stream, inbox[i]) in arrivals
  }

  lemma CameStill(before: seq<Arrival>, more: seq<Arrival>, stream: nat, t: TypeUrl, nonce: string)
    requires Came(before, stream, t, nonce)
    ensures Came(before + more, stream, t, nonce)
  {
    if nonce != "" {
      var a :| a in before && a.stream == stream && a.message.typeUrl == t && a.message.nonce == nonce;
      assert a in before + more;
    }
  }

  lemma SafeStill(s: State, arrivals: seq<Arrival>, more: seq<Arrival>)
    requires Safe(s, arrivals)
    ensures Safe(s, arrivals + more)
  {
    hide Came;
    forall t | t in s.apis
      ensures Came(arrivals + more, s.epoch, t, s.apis[t].request.responseNonce)
    {
      CameStill(arrivals, more, s.epoch, t, s.apis[t].request.responseNonce);
    }
    forall i | 0 <= i < |s.log|
      ensures Came(arrivals + more, s.log[i].stream, s.log[i].item, s.log[i].request.responseNonce)
    {
      CameStill(arrivals, more, s.log[i].stream, s.log[i].item, s.log[i].request.responseNonce);
    }
  }

  lemma SafeSend(s: State, t: TypeUrl, arrivals: seq<Arrival>)
    requires Safe(s, arrivals)
    ensures Safe(SendDiscoveryRequest(s, t), arrivals) && SendDiscoveryRequest(s, t).epoch == s.epoch
  {
    hide NamesOf;
    assert Came(arrivals, s.epoch, t, ApiOf(s, t).request.responseNonce);
    hide Came;
  }

  lemma SafeHeard(s: State, m: Response, arrivals: seq<Arrival>)
    requires Safe(s, arrivals) && Arrival(s.epoch, m) in arrivals
    ensures Safe(Heard(s, m), arrivals) && Heard(s, m).epoch == s.epoch
  {
    assert Came(arrivals, s.epoch, m.typeUrl, m.nonce);
    hide Came, HeardApi;
    if m.typeUrl in s.apis {
      HeardApiFields(s.apis[m.typeUrl], m);
    }
  }

  lemma {:induction false} SafeInterleaved(s: State, t: TypeUrl, inbox: seq<Response>, arrivals: seq<Arrival>)
    requires Safe(s, arrivals) && Covers(arrivals, s.epoch, inbox)
    ensures Safe(Interleaved(s, t, inbox), arrivals) && Interleaved(s, t, inbox).epoch == s.epoch
    decreases |inbox|
  {
    if inbox != [] {
      hide Safe, Heard, SendDiscoveryRequest;
      SafeHeard(s, inbox[0], arrivals);
      SafeSend(Heard(s, inbox[0]), t, arrivals);
      SafeInterleaved(HeardAndSent(s, t, inbox[0]), t, inbox[1..], arrivals);
    }
  }

  lemma {:induction false} SafeSendAll(s: State, ts: seq<TypeUrl>, arrivals: seq<Arrival>)
    requires Safe(s, arrivals)
    ensures Safe(SendAll(s, ts), arrivals) && SendAll(s, ts).epoch == s.epoch
    decreases |ts|
  {
    if ts != [] {
      hide Safe, SendDiscoveryRequest;
      SafeSend(s, ts[0], arrivals);
      SafeSendAll(SendDiscoveryRequest(s, ts[0]), ts[1..], arrivals);
    }
  }

  lemma SafeFlat(s: State, q: seq<TypeUrl>, inbox: seq<Response>, arrivals: seq<Arrival>)
    requires q != [] && Safe(s, arrivals) && Covers(arrivals, s.epoch, inbox)
    ensures Safe(Flat(s, q, inbox), arrivals) && Flat(s, q, inbox).epoch == s.epoch
  {
    var x := s.(queue := []);
    assert Safe(x, arrivals);
    hide Safe, SendDiscoveryRequest, Covers;
    SafeSend(x, q[0], arrivals);
    var x1 := SendDiscoveryRequest(x, q[0]);
    SafeInterleaved(x1, q[0], inbox, arrivals);
    SafeSendAll(Interleaved(x1, q[0], inbox), q[1..] + Provoked(EnsureApi(s, q[0]), inbox), arrivals);
  }

  /** A change of one type's state that keeps its nonce. */
  lemma SafeChange(s: State, s': State, t: TypeUrl, arrivals: seq<Arrival>)
    requires Safe(s, arrivals) && s'.epoch == s.epoch && s'.log == s.log
    requires t in s'.apis && s'.apis == s.apis[t := s'.apis[t]]
    requires s'.apis[t].request.responseNonce == ApiOf(s, t).request.responseNonce
    ensures Safe(s', arrivals)
  {
    assert Came(arrivals, s.epoch, t, ApiOf(s, t).request.responseNonce);
    hide Came;
  }

  /** What a call has read. */
  function ReadBy(inbox: seq<Response>, left: seq<Response>): seq<Response> {
    if left == inbox then [] else inbox
  }

  /** `o` is a good outcome of a call with `inbox` to read: queue empty, and nonces safe. */
  ghost predicate Good(s: State, inbox: seq<Response>, o: Outcome, arrivals: seq<Arrival>) {
    && o.s.queue == [] && o.s.epoch == s.epoch
    && (o.inbox == inbox || o.inbox == [])
    && Safe(o.s, arrivals + Stamped(s.epoch, ReadBy(inbox, o.inbox)))
  }

  lemma Unread(s: State, s': State, inbox: seq<Response>, arrivals: seq<Arrival>)
    requires Safe(s', arrivals) && s'.epoch == s.epoch && s'.queue == []
    ensures Good(s, inbox, Outcome(s', inbox, true), arrivals)
  {
    assert arrivals + Stamped(s.epoch, []) == arrivals;
  }

  lemma QueuedIsGood(s: State, t: TypeUrl, inbox: seq<Response>, arrivals: seq<Arrival>)
    requires s.queue == [] && Safe(s, arrivals)
    ensures Good(s, inbox, Queued(s, t, inbox), arrivals)
  {
    var s1 := EnsureApi(s, t);
    SafeChange(s, s1, t, arrivals);
    if Streaming(s) && s1.apis[t].pauses == 0 {
      var read := ReadBy(inbox, []);
      var all := arrivals + Stamped(s.epoch, read);
      assert Covers(all, s.epoch, inbox) by {
        forall i | 0 <= i < |inbox|
          ensures Arrival(s.epoch, inbox[i]) in all
        {
          assert Stamped(s.epoch, read)[i] == Arrival(s.epoch, inbox[i]);
        }
      }
      hide Safe, Flat, Covers;
      SafeStill(s1, arrivals, Stamped(s.epoch, read));
      SafeFlat(s1, s.queue + [t], inbox, all);
      DrainedQueue(s1, s.queue + [t], inbox);
    } else {
      var s' := QueueDiscoveryRequest(s, t);
      QueueUnsent(s, t);
      hide QueueDiscoveryRequest;
      if s' != s {
        SafeChange(s, s', t, arrivals);
      }
      Unread(s, s', inbox, arrivals);
    }
  }

  lemma QueueUnsent(s: State, t: TypeUrl)
    requires s.queue == [] && (!Streaming(s) || ApiOf(s, t).pauses > 0)
    ensures var s' := QueueDiscoveryRequest(s, t);
            && s'.queue == [] && s'.epoch == s.epoch && s'.log == s.log
            && (s' == s || (t in s'.apis && s'.apis == s.apis[t := s'.apis[t]] && s'.apis[t].request == ApiOf(s, t).request))
  {
    if s.up && ApiOf(s, t).pauses == 0 {
      DrainSilently(EnsureApi(s, t).(queue := s.queue + [t]));
      hide DrainRequests;
    }
  }

  /** One call after another, with a change in between that keeps nonces. */
  lemma GoodThen(s: State, inbox: seq<Response>, o: Outcome, s2: State, o2: Outcome, arrivals: seq<Arrival>)
    requires Good(s, inbox, o, arrivals) && s2.epoch == o.s.epoch
    requires Good(s2, o.inbox, o2, arrivals + Stamped(s.epoch, ReadBy(inbox, o.inbox)))
    ensures Good(s, inbox, o2, arrivals)
  {
    var a, b := ReadBy(inbox, o.inbox), ReadBy(o.inbox, o2.inbox);
    ReadTwice(inbox, o.inbox, o2.inbox);
    StampedTwice(arrivals, s.epoch, a, b);
    hide Safe, ReadBy, Stamped;
  }

  lemma ReadTwice(inbox: seq<Response>, left: seq<Response>, left2: seq<Response>)
    requires (left == inbox || left == []) && (left2 == left || left2 == [])
    ensures ReadBy(inbox, left) + ReadBy(left, left2) == ReadBy(inbox, left2)
  {
  }

  lemma StampedTwice(arrivals: seq<Arrival>, stream: nat, a: seq<Response>, b: seq<Response>)
    ensures (arrivals + Stamped(stream, a)) + Stamped(stream, b) == arrivals + Stamped(stream, a + b)
  {
    assert Stamped(stream, a + b) == Stamped(stream, a) + Stamped(stream, b);
    hide Stamped;
  }

  lemma AddedIsGood(s: State, t: TypeUrl, w: Watch, inbox: seq<Response>, arrivals: seq<Arrival>)
    requires s.queue == [] && Safe(s, arrivals)
    ensures Good(s, inbox, Added(s, t, w, inbox), arrivals)
  {
    var s1 := Subscribe(PushWatch(s, t, w), t);
    SafeChange(s, s1, t, arrivals);
    hide Safe, Queued;
    QueuedIsGood(s1, t, inbox, arrivals);
  }

  lemma DestroyedIsGood(s: State, t: TypeUrl, id: nat, inbox: seq<Response>, arrivals: seq<Arrival>)
    requires s.queue == [] && Safe(s, arrivals)
    ensures Good(s, inbox, Destroyed(s, t, id, inbox), arrivals)
  {
    var s1 := EraseWatch(s, t, id);
    SafeChange(s, s1, t, arrivals);
    hide Safe, Queued, Good;
    QueuedIsGood(s1, t, inbox, arrivals);
    Unread(s1, s1, inbox, arrivals);
    GoodFrom(s, s1, inbox, Destroyed(s, t, id, inbox), arrivals);
  }

  lemma GoodFrom(s: State, s1: State, inbox: seq<Response>, o: Outcome, arrivals: seq<Arrival>)
    requires Good(s1, inbox, o, arrivals) && s1.epoch == s.epoch
    ensures Good(s, inbox, o, arrivals)
  {
  }

  lemma UpdatedIsGood(s: State, t: TypeUrl, w: Watch, inbox: seq<Response>, arrivals: seq<Arrival>)
    requires s.queue == [] && Safe(s, arrivals)
    ensures Good(s, inbox, Updated(s, t, w, inbox), arrivals)
  {
    var o := Destroyed(s, t, w.id, inbox);
    DestroyedIsGood(s, t, w.id, inbox, arrivals);
    if o.ok {
      var more := arrivals + Stamped(s.epoch, ReadBy(inbox, o.inbox));
      var s2 := PushWatch(o.s, t, w);
      assert Safe(o.s, more) && o.s.queue == [];
      SafeChange(o.s, s2, t, more);
      hide Safe, Queued, Destroyed;
      QueuedIsGood(s2, t, o.inbox, more);
      GoodThen(s, inbox, o, s2, Queued(s2, t, o.inbox), arrivals);
    }
  }

  lemma ReceivedIsGood(s: State, m: Response, inbox: seq<Response>, arrivals: seq<Arrival>)
    requires s.queue == [] && Safe(s, arrivals)
    ensures Good(s, inbox, Received(s, m, inbox), arrivals + [Arrival(s.epoch, m)])
  {
    var more := arrivals + [Arrival(s.epoch, m)];
    SafeStill(s, arrivals, [Arrival(s.epoch, m)]);
    HeardShape(s, m);
    SafeHeard(s, m, more);
    hide Safe, Queued, Heard, Good;
    var s1 := Heard(s, m);
    if Streaming(s) && Provoking(s, m) {
      QueuedIsGood(s1, m.typeUrl, inbox, more);
      GoodFrom(s, s1, inbox, Received(s, m, inbox), more);
    } else {
      ReceivedUnanswered(s, m, more);
      Unread(s, OnDiscoveryResponse(s, m), inbox, more);
    }
  }

  lemma ReceivedUnanswered(s: State, m: Response, arrivals: seq<Arrival>)
    requires s.queue == [] && Safe(s, arrivals) && Arrival(s.epoch, m) in arrivals
    requires !(Streaming(s) && Provoking(s, m))
    ensures var s' := OnDiscoveryResponse(s, m);
            s'.queue == [] && s'.epoch == s.epoch && Safe(s', arrivals)
  {
    var t := m.typeUrl;
    if t in s.apis {
      var s1 := WithApi(s, t, Noted(s.apis[t], m));
      assert Came(arrivals, s.epoch, t, m.nonce);
      assert Safe(s1, arrivals) by { hide Came; }
      if Answers(s.apis[t], m) {
        QueueUnsent(s1, t);
        hide QueueDiscoveryRequest;
        var s' := QueueDiscoveryRequest(s1, t);
        if s' != s1 {
          SafeChange(s1, s', t, arrivals);
        }
      }
    }
  }

  lemma {:induction false} AllQueuedIsGood(s: State, i: nat, inbox: seq<Response>, arrivals: seq<Arrival>)
    requires s.queue == [] && i <= |s.subs| && Safe(s, arrivals)
    ensures Good(s, inbox, AllQueued(s, i, inbox), arrivals)
    decreases |Unsubscribed(s)|, |s.subs| - i
  {
    if i == |s.subs| {
      hide Safe;
      Unread(s, s, inbox, arrivals);
    } else {
      hide Safe, Queued;
      var o := Queued(s, s.subs[i], inbox);
      QueuedIsGood(s, s.subs[i], inbox, arrivals);
      QueuedKeepsMeasure(s, s.subs[i], inbox);
      if o.ok {
        AllQueuedIsGood(o.s, i + 1, o.inbox, arrivals + Stamped(s.epoch, ReadBy(inbox, o.inbox)));
        GoodThen(s, inbox, o, o.s, AllQueued(o.s, i + 1, o.inbox), arrivals);
      }
    }
  }

  lemma EstablishedIsGood(s: State, arriving: seq<Response>, arrivals: seq<Arrival>)
    requires Safe(s, arrivals)
    ensures Good(Opener(s), arriving, Established(s, arriving), arrivals)
  {
    assert Safe(Opener(s), arrivals) by { SafeOpener(s, arrivals); }
    hide Safe, AllQueued;
    AllQueuedIsGood(Opener(s), 0, arriving, arrivals);
  }

  lemma SafeOpener(s: State, arrivals: seq<Arrival>)
    requires Safe(s, arrivals)
    ensures Safe(Opener(s), arrivals)
  {
    forall t | t in s.apis
      ensures Came(arrivals, s.epoch + 1, t, "")
    {
    }
    hide Came;
  }
}
