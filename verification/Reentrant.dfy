/**
  The client with a stream that can be read in the middle of a send. A method returns `false` as
  soon as an enclosing `pop` meets an empty queue, which is where the C++ program has no defined
  behaviour.
 */
module Reentrant {
  import opened ResourceNames
  import opened MuxModel
  import opened MuxInvariant
  import opened ReentrantModel
  import opened ReentrantCalls
  import opened ReentrantRuns

  class ReentrantClient {
    var mux: State
    /** What the server has sent on the stream and the client has not read. */
    var inbox: seq<Response>
    ghost var history: seq<Event>
    ghost var arrivals: seq<Arrival>

    /** Between calls nothing is queued, and every nonce went out on the stream it came on. */
    ghost predicate Valid()
      reads this
    {
      mux.queue == [] && Safe(mux, arrivals)
    }

    /** The client is where its history of calls and responses is. */
    ghost predicate Reached()
      reads this
    {
      At(mux, history)
    }

    constructor ()
      ensures Valid() && Reached() && mux == INIT && inbox == [] && history == [] && arrivals == []
    {
      mux, inbox, history, arrivals := INIT, [], [], [];
      new;
      MuxInvariant.Reachable([]);
    }

    /** The names, the request and the write of `sendDiscoveryRequest`. */
    method Write(t: TypeUrl)
      requires Streaming(mux)
      modifies this`mux
      ensures mux == MuxModel.SendDiscoveryRequest(old(mux), t)
    {
      hide Names;
      var a := ApiOf(mux, t);
      var names := CollectNames(SetsOf(a.watches));
      var request := a.request.(resourceNames := names);
      var subs := mux.subs;
      if a.mustSendNode || mux.first {
        if !a.subscribed {
          request := request.(typeUrl := t, node := Some(NODE));
          a := a.(subscribed := true);
          subs := subs + [t];
        }
        a := a.(mustSendNode := false);
      } else {
        request := request.(node := None);
      }
      mux := mux.(apis := mux.apis[t := a.(request := request)], subs := subs, first := false,
                  log := mux.log + [Sent(mux.epoch, t, request)]);
    }

    /** The read loop of a send. */
    method ReadAll() returns (ok: bool)
      requires Streaming(mux) && mux.queue != [] && mux.queue[0] in mux.apis
      modifies this`mux, this`inbox
      ensures mux == AfterReading(old(mux), old(inbox)) && inbox == []
      ensures ok <==> |Provoked(old(mux), old(inbox))| <= 1
      decreases |inbox|, 0
    {
      ok := true;
      hide Flat, Heard, Provoking;
      ghost var us := Provoked(mux, inbox);
      while inbox != []
        invariant ok && |inbox| <= |old(inbox)|
        invariant AfterReading(mux, inbox) == AfterReading(old(mux), old(inbox))
        invariant (Streaming(mux) && mux.queue != [] && mux.queue[0] in mux.apis && Provoked(mux, inbox) == us)
                  || (inbox == [] && |us| == 1)
        decreases |inbox|
      {
        var m := inbox[0];
        ghost var s, rest := mux, inbox[1..];
        HeardShape(s, m);
        EnsureKnown(Heard(s, m), s.queue[0]);
        ProvokedByShape(s, Heard(s, m), rest);
        inbox := inbox[1..];
        ok := OnDiscoveryResponse(m);
        if !ok {
          return;
        }
      }
    }

    /**
      Sends the front item. After shutdown nothing happens. Otherwise the inbox is read to its
      end; `ok` says that no nested `pop` met an empty queue.
     */
    method SendDiscoveryRequest(t: TypeUrl) returns (ok: bool)
      requires mux.up || mux.shut
      requires mux.queue != [] && t == mux.queue[0]
      modifies this`mux, this`inbox
      ensures old(mux).shut ==> ok && mux == old(mux) && inbox == old(inbox)
      ensures !old(mux).shut ==>
                && mux == AfterReading(MuxModel.SendDiscoveryRequest(old(mux), t), old(inbox)) && inbox == []
                && (ok <==> |Provoked(EnsureApi(old(mux), t), old(inbox))| <= 1)
      decreases |inbox|, 1
    {
      if mux.shut {
        return true;
      }
      hide MuxModel.SendDiscoveryRequest, AfterReading;
      SendShape(mux, t);
      ghost var s := EnsureApi(mux, t);
      Write(t);
      ProvokedByShape(s, mux, inbox);
      ok := ReadAll();
    }

    /**
      Drains the queue. After shutdown the items are only dropped. Otherwise, with `k` replies
      provoked, the front item goes out `k + 1` times, then the rest of the queue, then the `k`
      replies; every `pop` meets an item to remove if and only if `k` is zero.
     */
    method DrainRequests() returns (ok: bool)
      requires mux.queue == [] || mux.up || mux.shut
      modifies this`mux, this`inbox
      ensures mux.queue == []
      ensures old(mux).queue == [] || old(mux).shut ==>
                ok && mux == old(mux).(queue := []) && inbox == old(inbox)
      ensures old(mux).queue != [] && !old(mux).shut ==>
                && mux == Flat(old(mux), old(mux).queue, old(inbox)) && inbox == []
                && (ok <==> Provoked(EnsureApi(old(mux), old(mux).queue[0]), old(inbox)) == [])
      ensures old(inbox) == [] || old(mux).shut ==> mux == MuxModel.DrainRequests(old(mux))
      decreases |inbox|, 2
    {
      hide MuxModel.SendDiscoveryRequest, MuxModel.DrainRequests, Flat, Interleaved, AfterReading;
      ok := true;
      ghost var q := mux.queue;
      while mux.queue != []
        invariant ok
        invariant old(mux).shut ==> mux == old(mux).(queue := mux.queue) && inbox == old(inbox)
        invariant !old(mux).shut ==>
                    || (mux == old(mux) && inbox == old(inbox))
                    || (q != [] && inbox == [] && Streaming(mux) && Provoked(EnsureApi(old(mux), q[0]), old(inbox)) == []
                        && SendAll(mux.(queue := []), mux.queue) == Flat(old(mux), q, old(inbox)))
        decreases |mux.queue|
      {
        ghost var s1, inbox1 := mux, inbox;
        ok := SendDiscoveryRequest(mux.queue[0]);
        if !s1.shut {
          if s1 == old(mux) && inbox1 == old(inbox) {
            FirstSend(s1, inbox1);
          } else {
            NextSend(s1);
          }
        }
        if !ok || mux.queue == [] {
          return false;
        }
        mux := mux.(queue := mux.queue[1..]);
      }
      if old(mux).shut || q == [] {
        DrainSilently(old(mux));
      } else if old(inbox) == [] {
        FlatIsDrain(old(mux));
      }
    }

    /** Nothing is queued without a stream or for a paused type; otherwise the queue is drained. */
    method QueueDiscoveryRequest(item: TypeUrl) returns (ok: bool)
      modifies this`mux, this`inbox
      ensures var s1 := EnsureApi(old(mux), item);
              if old(mux).up && !old(mux).shut && s1.apis[item].pauses == 0 then
                var us := Provoked(EnsureApi(s1, (old(mux).queue + [item])[0]), old(inbox));
                && mux == Flat(s1, old(mux).queue + [item], old(inbox)) && inbox == []
                && (ok <==> us == [])
                && (old(mux).queue == [] ==> |mux.log| == |old(mux).log| + 2 * |us| + 1)
              else
                ok && mux == MuxModel.QueueDiscoveryRequest(old(mux), item) && inbox == old(inbox)
      ensures old(inbox) == [] ==> mux == MuxModel.QueueDiscoveryRequest(old(mux), item)
      ensures Outcome(mux, inbox, ok) == Queued(old(mux), item, old(inbox))
      decreases |inbox|, 3
    {
      hide MuxModel.SendDiscoveryRequest, MuxModel.DrainRequests, Flat, Provoked;
      ok := true;
      if !mux.up {
        return;
      }
      mux := EnsureApi(mux, item);
      if mux.apis[item].pauses > 0 {
        mux := WithApi(mux, item, mux.apis[item].(pending := true));
        return;
      }
      ghost var s1 := mux;
      mux := mux.(queue := mux.queue + [item]);
      ghost var s2 := mux;
      ok := DrainRequests();
      FlatFromQueue(s1, s2, item, old(inbox));
    }

    /** The part of `onDiscoveryResponse` before the reply; `answer` says whether there is one. */
    method Note(m: Response) returns (answer: bool)
      requires m.typeUrl in mux.apis
      modifies this`mux
      ensures mux == WithApi(old(mux), m.typeUrl, Noted(old(mux).apis[m.typeUrl], m))
      ensures answer <==> Answers(old(mux).apis[m.typeUrl], m)
    {
      var t := m.typeUrl;
      var a := mux.apis[t];
      var request := a.request.(responseNonce := m.nonce);
      if a.watches == [] {
        if m.resources == [] {
          mux := WithApi(mux, t, a.(request := request.(versionInfo := m.versionInfo)));
          return false;
        }
        mux := WithApi(mux, t, a.(request := request));
      } else {
        mux := WithApi(mux, t, a.(request := request, previouslyFetchedData := true));
      }
      return true;
    }

    /** A response: noted, and on a live stream, if it provokes a reply, queued behind what is queued. */
    method OnDiscoveryResponse(m: Response) returns (ok: bool)
      modifies this`mux, this`inbox
      ensures if Streaming(old(mux)) && Provoking(old(mux), m) then
                var s1, q := Heard(old(mux), m), old(mux).queue + [m.typeUrl];
                && mux == Flat(s1, q, old(inbox)) && inbox == []
                && (ok <==> Provoked(EnsureApi(s1, q[0]), old(inbox)) == [])
              else
                ok && mux == MuxModel.OnDiscoveryResponse(old(mux), m) && inbox == old(inbox)
      ensures Streaming(old(mux)) && !Provoking(old(mux), m) ==> mux == Heard(old(mux), m)
      ensures old(inbox) == [] ==> mux == MuxModel.OnDiscoveryResponse(old(mux), m)
      decreases |inbox|, 4
    {
      hide MuxModel.DrainRequests, Flat, Provoked;
      ok := true;
      if m.typeUrl !in mux.apis {
        return;
      }
      var answer := Note(m);
      if answer {
        ghost var s1 := mux;
        assert EnsureApi(s1, m.typeUrl) == s1;
        ok := QueueDiscoveryRequest(m.typeUrl);
      }
    }

    // ---- Public calls ----

    /** The server sends a response. */
    method Arrive(m: Response)
      requires Valid() && Reached()
      modifies this`inbox
      ensures Valid() && Reached() && inbox == old(inbox) + [m]
    {
      inbox := inbox + [m];
    }

    /**
      Like every call below: whatever is read, the client stays valid; as long as no reply is
      provoked, it goes on along a legal run, in which it receives what it has read.
     */
    method AddWatch(t: TypeUrl, id: nat, resources: set<Name>) returns (ok: bool)
      requires Valid() && Reached() && !Watches(ApiOf(mux, t).watches, id)
      modifies this
      ensures Valid() && Outcome(mux, inbox, ok) == Added(old(mux), t, Watch(id, resources), old(inbox))
      ensures ok ==> Reached() && history == old(history) + [MuxModel.AddWatch(t, id, resources)] + Receives(ReadBy(old(inbox), inbox))
      ensures arrivals == old(arrivals) + Stamped(old(mux).epoch, ReadBy(old(inbox), inbox))
    {
      hide Safe, At, Queued, MuxModel.QueueDiscoveryRequest, PushWatch, Subscribe, Flat, Provoked;
      ghost var w := Watch(id, resources);
      AddedIsGood(mux, t, w, inbox, arrivals);
      if Added(mux, t, w, inbox).ok {
        AddedIsRun(mux, history, t, w, inbox);
      }
      mux := PushWatch(mux, t, Watch(id, resources));
      mux := Subscribe(mux, t);
      ok := QueueDiscoveryRequest(t);
      history := history + [MuxModel.AddWatch(t, id, resources)] + Receives(ReadBy(old(inbox), inbox));
      arrivals := arrivals + Stamped(old(mux).epoch, ReadBy(old(inbox), inbox));
    }

    /** What the destructor and `update` begin with. */
    method Withdraw(t: TypeUrl, id: nat) returns (ok: bool)
      modifies this`mux, this`inbox
      ensures Outcome(mux, inbox, ok) == Destroyed(old(mux), t, id, old(inbox))
    {
      hide Queued, MuxModel.QueueDiscoveryRequest, Flat, Provoked, EraseWatch, ResourcesOf;
      var watched := ResourcesOf(ApiOf(mux, t).watches, id);
      mux := EraseWatch(mux, t, id);
      ok := true;
      if watched != {} {
        ok := QueueDiscoveryRequest(t);
      }
    }

    method Destroy(t: TypeUrl, id: nat) returns (ok: bool)
      requires Valid() && Reached() && Watches(ApiOf(mux, t).watches, id)
      modifies this
      ensures Valid() && Outcome(mux, inbox, ok) == Destroyed(old(mux), t, id, old(inbox))
      ensures ok ==> Reached() && history == old(history) + [MuxModel.Destroy(t, id)] + Receives(ReadBy(old(inbox), inbox))
      ensures arrivals == old(arrivals) + Stamped(old(mux).epoch, ReadBy(old(inbox), inbox))
    {
      hide Safe, At, Destroyed;
      DestroyedIsGood(mux, t, id, inbox, arrivals);
      if Destroyed(mux, t, id, inbox).ok {
        DestroyedIsRun(mux, history, t, id, inbox);
      }
      ok := Withdraw(t, id);
      history := history + [MuxModel.Destroy(t, id)] + Receives(ReadBy(old(inbox), inbox));
      arrivals := arrivals + Stamped(old(mux).epoch, ReadBy(old(inbox), inbox));
    }

    /** A watcher that watched something leaves, the client reads, and the watcher enters again. */
    method Update(t: TypeUrl, id: nat, resources: set<Name>) returns (ok: bool)
      requires Valid() && Reached() && Watches(ApiOf(mux, t).watches, id)
      modifies this
      ensures Valid() && Outcome(mux, inbox, ok) == Updated(old(mux), t, Watch(id, resources), old(inbox))
      ensures ok ==>
                && Reached()
                && history == old(history) + UpdateEvents(t, Watch(id, resources), ResourcesOf(ApiOf(old(mux), t).watches, id),
                                                          ReadBy(old(inbox), inbox))
      ensures arrivals == old(arrivals) + Stamped(old(mux).epoch, ReadBy(old(inbox), inbox))
    {
      hide Safe, At, Destroyed, Queued, MuxModel.QueueDiscoveryRequest, PushWatch, Flat, Provoked, UpdateEvents, ResourcesOf;
      ghost var w := Watch(id, resources);
      UpdatedIsGood(mux, t, w, inbox, arrivals);
      if Updated(mux, t, w, inbox).ok {
        UpdatedIsRun(mux, history, t, w, inbox);
      }
      ok := Withdraw(t, id);
      if ok {
        mux := PushWatch(mux, t, Watch(id, resources));
        ok := QueueDiscoveryRequest(t);
      }
      history := history + UpdateEvents(t, w, ResourcesOf(ApiOf(old(mux), t).watches, id), ReadBy(old(inbox), inbox));
      arrivals := arrivals + Stamped(old(mux).epoch, ReadBy(old(inbox), inbox));
    }

    method Receive(m: Response) returns (ok: bool)
      requires Valid() && Reached()
      modifies this
      ensures Valid() && Outcome(mux, inbox, ok) == Received(old(mux), m, old(inbox))
      ensures ok ==> Reached() && history == old(history) + [MuxModel.Receive(m)] + Receives(ReadBy(old(inbox), inbox))
      ensures arrivals == old(arrivals) + [Arrival(old(mux).epoch, m)] + Stamped(old(mux).epoch, ReadBy(old(inbox), inbox))
    {
      hide Safe, At, Received, MuxModel.OnDiscoveryResponse, Flat, Provoked;
      ReceivedIsGood(mux, m, inbox, arrivals);
      ReceivedParts(mux, m, inbox);
      if Received(mux, m, inbox).ok {
        ReceivedIsRun(mux, history, m, inbox);
      }
      ok := OnDiscoveryResponse(m);
      history := history + [MuxModel.Receive(m)] + Receives(ReadBy(old(inbox), inbox));
      arrivals := arrivals + [Arrival(old(mux).epoch, m)] + Stamped(old(mux).epoch, ReadBy(old(inbox), inbox));
    }

    /** The loop over the subscriptions, which may grow under it. */
    method QueueAll() returns (ok: bool)
      requires mux.queue == []
      modifies this`mux, this`inbox
      ensures Outcome(mux, inbox, ok) == AllQueued(old(mux), 0, old(inbox))
    {
      hide Queued, MuxModel.QueueDiscoveryRequest, Flat, Provoked;
      var i := 0;
      ok := true;
      while i < |mux.subs|
        invariant ok && mux.queue == [] && i <= |mux.subs|
        invariant AllQueued(mux, i, inbox) == AllQueued(old(mux), 0, old(inbox))
        decreases |Unsubscribed(mux)|, |mux.subs| - i
      {
        QueuedKeepsMeasure(mux, mux.subs[i], inbox);
        ok := QueueDiscoveryRequest(mux.subs[i]);
        if !ok {
          return;
        }
        i := i + 1;
      }
    }

    /** A stream opens, on which the server is going to send `arriving`. */
    method OnStreamEstablished(arriving: seq<Response>) returns (ok: bool)
      requires Valid() && Reached()
      modifies this
      ensures Valid() && Outcome(mux, inbox, ok) == Established(old(mux), arriving)
      ensures ok ==> Reached() && history == old(history) + [Establish(true)] + Receives(ReadBy(arriving, inbox))
      ensures arrivals == old(arrivals) + Stamped(old(mux).epoch + 1, ReadBy(arriving, inbox))
    {
      hide Safe, At, AllQueued;
      EstablishedIsGood(mux, arriving, arrivals);
      if Established(mux, arriving).ok {
        EstablishedIsRun(mux, history, arriving);
      }
      mux := mux.(up := true, first := true, apis := MuxModel.ClearNonce(mux.apis), queue := [], epoch := mux.epoch + 1);
      inbox := arriving;
      ok := QueueAll();
      history := history + [Establish(true)] + Receives(ReadBy(arriving, inbox));
      arrivals := arrivals + Stamped(old(mux).epoch + 1, ReadBy(arriving, inbox));
    }

    /** The stub hands out no stream. */
    method OnStreamRefused()
      requires Valid() && Reached()
      modifies this`mux, this`history
      ensures Valid() && Reached() && mux == old(mux).(up := false) && history == old(history) + [Establish(false)]
    {
      AtStep(mux, history, Establish(false));
      AlikeLegal(mux, Run(history), Establish(false));
      hide Came, At;
      mux := mux.(up := false);
      history := history + [Establish(false)];
    }

    method Shutdown()
      requires Valid() && Reached() && mux.up
      modifies this`mux, this`history
      ensures Valid() && Reached() && mux == old(mux).(shut := true) && history == old(history) + [MuxModel.Shutdown]
    {
      AtStep(mux, history, MuxModel.Shutdown);
      hide Came, At;
      mux := mux.(shut := true);
      history := history + [MuxModel.Shutdown];
    }
  }

  lemma ReceivedParts(s: State, m: Response, inbox: seq<Response>)
    ensures Streaming(s) && Provoking(s, m) ==>
              var s1, q := Heard(s, m), s.queue + [m.typeUrl];
              Received(s, m, inbox) == Outcome(Flat(s1, q, inbox), [], Provoked(EnsureApi(s1, q[0]), inbox) == [])
    ensures !(Streaming(s) && Provoking(s, m)) ==> Received(s, m, inbox) == Outcome(OnDiscoveryResponse(s, m), inbox, true)
  {
    hide Flat, Provoked, OnDiscoveryResponse;
    if Streaming(s) && Provoking(s, m) {
      HeardShape(s, m);
      EnsureKnown(Heard(s, m), m.typeUrl);
    }
  }

  // ---- The failing pop is reachable ----

  /**
    A new client opens a stream on which a response for the Cluster type with a resource is to be
    read: it writes three times, and a `pop` meets an empty queue.
   */
  method PopOfEmptyQueue(m: Response) returns (c: ReentrantClient, ok: bool)
    requires m.typeUrl == CLUSTER && m.resources != []
    ensures !ok && |c.mux.log| == 3
  {
    hide Run, LegalRun, Established, Step;
    c := new ReentrantClient();
    ThreeWrites(m);
    ok := c.OnStreamEstablished([m]);
  }

  lemma ThreeWrites(m: Response)
    requires m.typeUrl == CLUSTER && m.resources != []
    ensures var o := Established(INIT, [m]); !o.ok && |o.s.log| == 3
  {
    var s0 := Opener(INIT);
    var s1 := EnsureApi(s0, CLUSTER);
    assert s0.subs == [CLUSTER] && s0.queue == [] && s0.apis == map[];
    assert Provoked(s1, []) == [] && Provoking(s1, m) && Provoked(s1, [m]) == [CLUSTER];
    hide Flat, Answers;
    FlatFromQueue(s1, s1.(queue := [CLUSTER]), CLUSTER, [m]);
    var o := Queued(s0, CLUSTER, [m]);
    assert s0.queue + [CLUSTER] == [CLUSTER];
    assert !o.ok && |o.s.log| == 3;
    assert AllQueued(s0, 0, [m]) == o;
  }
}
