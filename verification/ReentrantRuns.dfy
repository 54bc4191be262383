/**
  As long as no response provokes a reply, a client that reads in the middle of its sends is where
  a legal run of `MuxModel` is, and has written what that run has written, nonces and versions
  aside. What the runs guarantee it therefore guarantees too.
 */
module ReentrantRuns {
  import opened ResourceNames
  import opened MuxModel
  import opened MuxInvariant
  import opened MuxProduct
  import opened MuxHistory
  import opened MuxConvergence
  import opened MuxWire
  import opened ReentrantModel
  import opened ReentrantCalls

  // ---- States alike up to the nonces and versions written ----

  predicate AlikeWrite(x: Sent, y: Sent) {
    && x.stream == y.stream && x.item == y.item
    && x.request == y.request.(versionInfo := x.request.versionInfo, responseNonce := x.request.responseNonce)
  }

  predicate AlikeLogs(a: seq<Sent>, b: seq<Sent>) {
    |a| == |b| && forall i | 0 <= i < |a| :: AlikeWrite(a[i], b[i])
  }

  ghost predicate Alike(s: State, r: State) {
    Inv(s) && Inv(r) && s == r.(log := s.log) && AlikeLogs(s.log, r.log)
  }

  lemma AlikeConcat(a: seq<Sent>, b: seq<Sent>, c: seq<Sent>, d: seq<Sent>)
    requires AlikeLogs(a, b) && AlikeLogs(c, d)
    ensures AlikeLogs(a + c, b + d)
  {
    hide AlikeWrite;
  }

  lemma AlikeItself(a: seq<Sent>)
    ensures AlikeLogs(a, a)
  {
  }

  lemma AlikeChange(s: State, r: State, s': State, r': State)
    requires Alike(s, r) && Inv(s') && Inv(r')
    requires s'.log == s.log && r'.log == r.log && s' == r'.(log := s'.log)
    ensures Alike(s', r')
  {
  }

  lemma AlikeEmit(s: State, r: State, t: TypeUrl)
    requires Alike(s, r) && t in s.apis
    ensures Alike(Emit(s, t), Emit(r, t))
  {
    InvEmit(s, t);
    InvEmit(r, t);
    hide Inv, QueueDiscoveryRequest, Reply, Refreshed;
    if Streaming(s) {
      var w := [Sent(s.epoch, t, Reply(s.apis[t]))];
      AlikeItself(w);
      AlikeConcat(s.log, r.log, w, w);
    }
  }

  lemma AlikeDestroy(s: State, r: State, t: TypeUrl, id: nat)
    requires Alike(s, r) && t in s.apis
    ensures Alike(DoDestroy(s, t, id), DoDestroy(r, t, id))
  {
    InvErase(s, t, id);
    InvErase(r, t, id);
    EraseKeepsInv(s, t, id);
    EraseKeepsInv(r, t, id);
    hide Inv, DoDestroy, Emit, AlikeLogs, Erase, ResourcesOf;
    AlikeChange(s, r, EraseWatch(s, t, id), EraseWatch(r, t, id));
    AlikeEmit(EraseWatch(s, t, id), EraseWatch(r, t, id), t);
  }

  lemma EraseKeepsInv(s: State, t: TypeUrl, id: nat)
    requires Inv(s) && t in s.apis
    ensures Inv(EraseWatch(s, t, id))
  {
    var a := s.apis[t];
    EraseMeaning(a.watches, id);
    hide Erase;
    InvReplace(s, t, a.(watches := Erase(a.watches, id)));
  }

  lemma PushKeepsInv(s: State, t: TypeUrl, w: Watch)
    requires Inv(s) && t in s.apis && !Watches(s.apis[t].watches, w.id)
    ensures Inv(PushWatch(s, t, w)) && Subscribe(PushWatch(s, t, w), t) == PushWatch(s, t, w)
  {
    var a := s.apis[t];
    InvReplace(s, t, a.(watches := [w] + a.watches));
  }

  lemma AlikeUpdate(s: State, r: State, t: TypeUrl, w: Watch)
    requires Alike(s, r) && t in s.apis
    ensures Alike(DoUpdate(s, t, w.id, w.resources), DoUpdate(r, t, w.id, w.resources))
  {
    InvUpdate(s, t, w.id, w.resources);
    InvUpdate(r, t, w.id, w.resources);
    InvErase(s, t, w.id);
    InvErase(r, t, w.id);
    AlikeDestroy(s, r, t, w.id);
    hide Inv, DoDestroy, DoUpdate, Emit, AlikeLogs;
    var s1, r1 := DoDestroy(s, t, w.id), DoDestroy(r, t, w.id);
    PushKeepsInv(s1, t, w);
    PushKeepsInv(r1, t, w);
    AlikeChange(s1, r1, PushWatch(s1, t, w), PushWatch(r1, t, w));
    AlikeEmit(PushWatch(s1, t, w), PushWatch(r1, t, w), t);
  }

  lemma AlikeAddWatch(s: State, r: State, t: TypeUrl, w: Watch)
    requires Alike(s, r) && !Watches(ApiOf(s, t).watches, w.id)
    ensures Alike(DoAddWatch(s, t, w.id, w.resources), DoAddWatch(r, t, w.id, w.resources))
  {
    var s1, r1 := Subscribe(PushWatch(s, t, w), t), Subscribe(PushWatch(r, t, w), t);
    InvJoin(s, t, w);
    InvJoin(r, t, w);
    hide Inv, Emit, AlikeLogs, QueueDiscoveryRequest;
    InvEmit(s1, t);
    InvEmit(r1, t);
    AlikeChange(s, r, s1, r1);
    AlikeEmit(s1, r1, t);
  }

  lemma AlikeReceive(s: State, r: State, m: Response)
    requires Alike(s, r)
    ensures Alike(OnDiscoveryResponse(s, m), OnDiscoveryResponse(r, m))
  {
    var t := m.typeUrl;
    InvReceive(s, m);
    InvReceive(r, m);
    if t in s.apis {
      NotedKeepsInv(s, m);
      NotedKeepsInv(r, m);
      hide Inv, OnDiscoveryResponse, Emit, AlikeLogs, Noted;
      var s1, r1 := WithApi(s, t, Noted(s.apis[t], m)), WithApi(r, t, Noted(r.apis[t], m));
      AlikeChange(s, r, s1, r1);
      AlikeEmit(s1, r1, t);
    }
  }

  lemma NotedKeepsInv(s: State, m: Response)
    requires Inv(s) && m.typeUrl in s.apis
    ensures Inv(WithApi(s, m.typeUrl, Noted(s.apis[m.typeUrl], m)))
  {
    InvReplace(s, m.typeUrl, Noted(s.apis[m.typeUrl], m));
  }

  lemma OpeningAlike(s: State, r: State)
    requires Alike(s, r) && !s.shut
    ensures Opened(s) == Opened(r).(log := s.log) && Opening(s) == Opening(r)
  {
    hide NamesOf, AlikeLogs;
    assert Opened(s) == Opened(r).(log := s.log);
    var o, p := Opened(s), Opened(r);
    assert o.apis == p.apis && o.epoch == p.epoch && o.subs == p.subs && OpeningRequest(s) == OpeningRequest(r);
    hide Opened, Reply;
    assert Replies(o, o.subs[1..]) == Replies(p, p.subs[1..]);
  }

  lemma AlikeEstablish(s: State, r: State)
    requires Alike(s, r)
    ensures Alike(Step(s, Establish(true)), Step(r, Establish(true)))
  {
    hide Inv, Step, Opened, Opening, Refreshed, AlikeLogs;
    var s', r' := Step(s, Establish(true)), Step(r, Establish(true));
    InvEstablish(s);
    InvEstablish(r);
    if s.shut {
      EstablishAfterShutdown(s);
      EstablishAfterShutdown(r);
      AlikeChange(s, r, s', r');
    } else {
      SameBookkeeping(s, r);
      OpeningAlike(s, r);
      EstablishmentTrace(s);
      EstablishmentTrace(r);
      assert s'.apis == r'.apis;
      AlikeItself(Opening(s));
      AlikeConcat(s.log, r.log, Opening(s), Opening(s));
    }
  }

  lemma SameBookkeeping(s: State, r: State)
    requires Inv(s) && Inv(r)
    ensures Bookkeeping(s) && Bookkeeping(r)
  {
  }

  /** Alike states stay alike, whatever is called. */
  lemma AlikeStep(s: State, r: State, e: Event)
    requires Alike(s, r) && Legal(r, e)
    ensures Alike(Step(s, e), Step(r, e))
  {
    hide NamesOf, AlikeLogs, Alike, DoDestroy, DoUpdate, DoAddWatch, OnDiscoveryResponse, OnStreamEstablished;
    AlikeLegal(s, r, e);
    match e
    case Establish(ok) =>
      if ok { AlikeEstablish(s, r); } else { AlikeFlags(s, r, s.(up := false), r.(up := false)); }
    case AddWatch(t, id, rs) => AlikeAddWatch(s, r, t, Watch(id, rs));
    case Update(t, id, rs) => AlikeUpdate(s, r, t, Watch(id, rs));
    case Destroy(t, id) => AlikeDestroy(s, r, t, id);
    case Receive(m) => AlikeReceive(s, r, m);
    case Shutdown => AlikeFlags(s, r, s.(shut := true), r.(shut := true));
  }

  lemma AlikeLegal(s: State, r: State, e: Event)
    requires Alike(s, r) && Legal(r, e)
    ensures Legal(s, e)
    ensures e.Update? || e.Destroy? ==> e.typeUrl in s.apis
    ensures s.up == r.up && s.shut == r.shut && s.apis == r.apis
    ensures e == Establish(false) ==> Step(s, e) == s.(up := false) && Step(r, e) == r.(up := false)
  {
    hide AlikeLogs;
  }

  lemma AlikeFlags(s: State, r: State, s': State, r': State)
    requires Alike(s, r)
    requires (s' == s.(up := false) && r' == r.(up := false)) || (s.up && s' == s.(shut := true) && r' == r.(shut := true))
    ensures Alike(s', r')
  {
    hide AlikeLogs;
    FlagsKeepInv(s, s');
    FlagsKeepInv(r, r');
  }

  lemma FlagsKeepInv(s: State, s': State)
    requires Inv(s) && (s' == s.(up := false) || (s.up && s' == s.(shut := true)))
    ensures Inv(s')
  {
    forall t
      ensures Listings(s', t) == Listings(s, t)
    {
    }
  }

  // ---- Reading is receiving ----

  function Receives(inbox: seq<Response>): (r: seq<Event>)
    ensures |r| == |inbox| && forall i | 0 <= i < |inbox| :: r[i] == Receive(inbox[i])
  {
    seq(|inbox|, i requires 0 <= i < |inbox| => Receive(inbox[i]))
  }

  /** `s` is where the legal run `h` is. */
  ghost predicate At(s: State, h: seq<Event>) {
    LegalRun(h) && Alike(s, Run(h))
  }

  lemma AtStep(s: State, h: seq<Event>, e: Event)
    requires At(s, h) && Legal(s, e)
    ensures At(Step(s, e), h + [e])
  {
    hide LegalRun, Run, AlikeLogs, Inv;
    assert Legal(Run(h), e);
    OneMoreEvent(h, e);
    AlikeStep(s, Run(h), e);
  }

  lemma HeardIsReceive(s: State, m: Response)
    requires Inv(s) && !Provoking(s, m)
    ensures Heard(s, m) == Step(s, Receive(m))
  {
    InvReceive(s, m);
    hide Emit, Noted, OnDiscoveryResponse;
    assert m.typeUrl in s.apis ==> Quiet(s.apis[m.typeUrl]);
  }

  lemma {:induction false} HearAllIsReceive(s: State, h: seq<Event>, inbox: seq<Response>)
    requires At(s, h) && Provoked(s, inbox) == []
    ensures At(HearAll(s, inbox), h + Receives(inbox))
    decreases |inbox|
  {
    hide Heard, Step, At, Inv, Provoking;
    if inbox == [] {
      assert h + Receives(inbox) == h;
    } else {
      var m, rest := inbox[0], inbox[1..];
      AtInv(s, h);
      HeardIsReceive(s, m);
      HeardShape(s, m);
      ProvokedByShape(s, Heard(s, m), rest);
      AtStep(s, h, Receive(m));
      HearAllIsReceive(Heard(s, m), h + [Receive(m)], rest);
      ReceivesOneMore(h, inbox);
    }
  }

  lemma AtInv(s: State, h: seq<Event>)
    requires At(s, h)
    ensures Inv(s)
  {
  }

  lemma ReceivesOneMore(h: seq<Event>, inbox: seq<Response>)
    requires inbox != []
    ensures h + [Receive(inbox[0])] + Receives(inbox[1..]) == h + Receives(inbox)
  {
  }

  /** The outcome of a call that takes the step of `e` and then reads, or reads nothing. */
  ghost predicate StepsAndReads(s: State, e: Event, inbox: seq<Response>, o: Outcome) {
    || o == Outcome(Step(s, e), inbox, true)
    || (o.inbox == [] && (o.ok <==> Provoked(Step(s, e), inbox) == []) && (o.ok ==> o.s == HearAll(Step(s, e), inbox)))
  }

  lemma StepsAndReadsIsRun(s: State, h: seq<Event>, e: Event, inbox: seq<Response>, o: Outcome)
    requires At(s, h) && Legal(s, e) && StepsAndReads(s, e, inbox, o) && o.ok
    ensures At(o.s, h + [e] + Receives(ReadBy(inbox, o.inbox)))
  {
    AtStep(s, h, e);
    hide Step, At;
    if o == Outcome(Step(s, e), inbox, true) {
      ReadNothing(h + [e]);
    } else {
      HearAllIsReceive(Step(s, e), h + [e], inbox);
      assert ReadBy(inbox, []) == inbox;
    }
  }

  /** Queueing a known type in a state that keeps the invariant. */
  lemma QueuedSteps(s: State, t: TypeUrl, inbox: seq<Response>)
    requires Inv(s) && t in s.apis
    ensures var o := Queued(s, t, inbox);
            && (!Streaming(s) ==> o == Outcome(Emit(s, t), inbox, true))
            && (Streaming(s) ==>
                  && o.inbox == []
                  && (o.ok <==> Provoked(Emit(s, t), inbox) == [])
                  && (o.ok ==> o.s == HearAll(Emit(s, t), inbox)))
  {
    InvEmit(s, t);
    assert Quiet(s.apis[t]) && s.queue == [];
    if Streaming(s) {
      QueuedSilently(s, t, inbox);
      EnsureKnown(s, t);
      EmitShape(s, t);
      hide Inv, Queued, Emit, QueueDiscoveryRequest;
      ProvokedByShape(s, Emit(s, t), inbox);
    }
  }

  lemma EmitShape(s: State, t: TypeUrl)
    requires t in s.apis
    ensures SameShape(s, Emit(s, t))
  {
    hide NamesOf;
  }

  // ---- The calls ----

  lemma AddedSteps(s: State, t: TypeUrl, w: Watch, inbox: seq<Response>)
    requires Inv(s) && !Watches(ApiOf(s, t).watches, w.id)
    ensures StepsAndReads(s, AddWatch(t, w.id, w.resources), inbox, Added(s, t, w, inbox))
  {
    var s1 := Subscribe(PushWatch(s, t, w), t);
    InvJoin(s, t, w);
    assert t in s1.apis;
    hide Inv, Queued, Emit, QueueDiscoveryRequest, PushWatch, Subscribe;
    InvEmit(s1, t);
    QueuedSteps(s1, t, inbox);
  }

  lemma DestroyedSteps(s: State, t: TypeUrl, id: nat, inbox: seq<Response>)
    requires Inv(s) && t in s.apis
    ensures StepsAndReads(s, Destroy(t, id), inbox, Destroyed(s, t, id, inbox))
  {
    var s1 := EraseWatch(s, t, id);
    InvErase(s, t, id);
    EraseKeepsInv(s, t, id);
    assert t in s1.apis;
    hide Inv, Queued, Emit, DoDestroy, EraseWatch;
    QueuedSteps(s1, t, inbox);
  }

  lemma SilentlyUpdatedSteps(s: State, t: TypeUrl, w: Watch, inbox: seq<Response>)
    requires Inv(s) && t in s.apis && ResourcesOf(s.apis[t].watches, w.id) == {}
    ensures StepsAndReads(s, Update(t, w.id, w.resources), inbox, Updated(s, t, w, inbox))
  {
    InvErase(s, t, w.id);
    InvUpdate(s, t, w.id, w.resources);
    hide Inv, Queued, Emit, DoUpdate;
    var s1 := DoDestroy(s, t, w.id);
    assert s1 == EraseWatch(s, t, w.id);
    hide DoDestroy, EraseWatch;
    PushKeepsInv(s1, t, w);
    var s2 := PushWatch(s1, t, w);
    assert t in s2.apis;
    QueuedSteps(s2, t, inbox);
  }

  lemma ReceivedSteps(s: State, m: Response, inbox: seq<Response>)
    requires Inv(s)
    ensures StepsAndReads(s, Receive(m), inbox, Received(s, m, inbox))
  {
    if Streaming(s) && Provoking(s, m) {
      InvReceive(s, m);
      NotedKeepsInv(s, m);
      var s1 := Heard(s, m);
      assert s1 == WithApi(s, m.typeUrl, Noted(s.apis[m.typeUrl], m));
      assert m.typeUrl in s1.apis;
      hide Inv, Queued, Emit, OnDiscoveryResponse, Heard, Noted;
      QueuedSteps(s1, m.typeUrl, inbox);
    }
  }

  lemma AddedIsRun(s: State, h: seq<Event>, t: TypeUrl, w: Watch, inbox: seq<Response>)
    requires At(s, h) && !Watches(ApiOf(s, t).watches, w.id) && Added(s, t, w, inbox).ok
    ensures var o := Added(s, t, w, inbox);
            At(o.s, h + [AddWatch(t, w.id, w.resources)] + Receives(ReadBy(inbox, o.inbox)))
  {
    hide Added, StepsAndReads, LegalRun, Run, Inv, AlikeLogs;
    AddedSteps(s, t, w, inbox);
    StepsAndReadsIsRun(s, h, AddWatch(t, w.id, w.resources), inbox, Added(s, t, w, inbox));
  }

  lemma DestroyedIsRun(s: State, h: seq<Event>, t: TypeUrl, id: nat, inbox: seq<Response>)
    requires At(s, h) && Watches(ApiOf(s, t).watches, id) && Destroyed(s, t, id, inbox).ok
    ensures var o := Destroyed(s, t, id, inbox);
            At(o.s, h + [Destroy(t, id)] + Receives(ReadBy(inbox, o.inbox)))
  {
    hide Destroyed, StepsAndReads, LegalRun, Run, Inv, AlikeLogs;
    DestroyedSteps(s, t, id, inbox);
    StepsAndReadsIsRun(s, h, Destroy(t, id), inbox, Destroyed(s, t, id, inbox));
  }

  lemma ReceivedIsRun(s: State, h: seq<Event>, m: Response, inbox: seq<Response>)
    requires At(s, h) && Received(s, m, inbox).ok
    ensures var o := Received(s, m, inbox);
            At(o.s, h + [Receive(m)] + Receives(ReadBy(inbox, o.inbox)))
  {
    hide Received, StepsAndReads, LegalRun, Run, Inv, AlikeLogs;
    ReceivedSteps(s, m, inbox);
    StepsAndReadsIsRun(s, h, Receive(m), inbox, Received(s, m, inbox));
  }

  /**
    The events that an update of a watcher amounts to. If the watcher watched something, the
    reading comes after it has left and before it enters again.
   */
  function UpdateEvents(t: TypeUrl, w: Watch, watched: set<Name>, read: seq<Response>): seq<Event> {
    if watched != {} then [Destroy(t, w.id)] + Receives(read) + [AddWatch(t, w.id, w.resources)]
    else [Update(t, w.id, w.resources)] + Receives(read)
  }

  lemma UpdatedIsRun(s: State, h: seq<Event>, t: TypeUrl, w: Watch, inbox: seq<Response>)
    requires At(s, h) && Watches(ApiOf(s, t).watches, w.id) && Updated(s, t, w, inbox).ok
    ensures var o := Updated(s, t, w, inbox);
            At(o.s, h + UpdateEvents(t, w, ResourcesOf(ApiOf(s, t).watches, w.id), ReadBy(inbox, o.inbox)))
  {
    var watched := ResourcesOf(ApiOf(s, t).watches, w.id);
    var o := Updated(s, t, w, inbox);
    var read := ReadBy(inbox, o.inbox);
    EventsOfUpdate(h, t, w, watched, read);
    hide Updated, LegalRun, Run, Inv, AlikeLogs, StepsAndReads, UpdateEvents;
    if watched == {} {
      SilentlyUpdatedSteps(s, t, w, inbox);
      StepsAndReadsIsRun(s, h, Update(t, w.id, w.resources), inbox, o);
    } else {
      LeftAndEntered(s, h, t, w, inbox);
    }
  }

  lemma EventsOfUpdate(h: seq<Event>, t: TypeUrl, w: Watch, watched: set<Name>, read: seq<Response>)
    ensures h + UpdateEvents(t, w, watched, read) ==
            if watched != {} then h + [Destroy(t, w.id)] + Receives(read) + [AddWatch(t, w.id, w.resources)]
            else h + [Update(t, w.id, w.resources)] + Receives(read)
  {
  }

  lemma LeftAndEntered(s: State, h: seq<Event>, t: TypeUrl, w: Watch, inbox: seq<Response>)
    requires At(s, h) && Watches(ApiOf(s, t).watches, w.id) && Updated(s, t, w, inbox).ok
    requires ResourcesOf(ApiOf(s, t).watches, w.id) != {}
    ensures var o := Updated(s, t, w, inbox);
            At(o.s, h + [Destroy(t, w.id)] + Receives(ReadBy(inbox, o.inbox)) + [AddWatch(t, w.id, w.resources)])
  {
    var o1, o := Destroyed(s, t, w.id, inbox), Updated(s, t, w, inbox);
    assert o1.ok && t in s.apis;
    hide Destroyed, Updated, LegalRun, Run, AlikeLogs, Inv, Watches, ResourcesOf, Receives;
    LeftBehind(s, t, w.id, inbox);
    DestroyedIsRun(s, h, t, w.id, inbox);
    EnteredAgain(s, t, w, inbox);
    var h1 := h + [Destroy(t, w.id)] + Receives(ReadBy(inbox, o1.inbox));
    AddedIsRun(o1.s, h1, t, w, o1.inbox);
    hide At, Added;
    ReadNothing(h1 + [AddWatch(t, w.id, w.resources)]);
  }

  lemma ReadNothing(h: seq<Event>)
    ensures h + Receives([]) == h
  {
  }

  /** The second half of an update is adding a watch of a type that is subscribed. */
  lemma EnteredAgain(s: State, t: TypeUrl, w: Watch, inbox: seq<Response>)
    requires var o := Destroyed(s, t, w.id, inbox);
             && o.ok && Inv(o.s) && t in o.s.apis && !Watches(o.s.apis[t].watches, w.id)
             && (Streaming(o.s) ==> o.inbox == [])
    ensures var o := Destroyed(s, t, w.id, inbox);
            Updated(s, t, w, inbox) == Added(o.s, t, w, o.inbox) && Updated(s, t, w, inbox).inbox == o.inbox
  {
    hide Destroyed, Queued;
    var o := Destroyed(s, t, w.id, inbox);
    PushKeepsInv(o.s, t, w);
    QueuedSteps(PushWatch(o.s, t, w), t, o.inbox);
  }

  /** After a watcher of something has left, it is in no list, and the inbox of a live stream has been read. */
  lemma LeftBehind(s: State, t: TypeUrl, id: nat, inbox: seq<Response>)
    requires Inv(s) && t in s.apis && ResourcesOf(s.apis[t].watches, id) != {} && Destroyed(s, t, id, inbox).ok
    ensures var o := Destroyed(s, t, id, inbox);
            && t in o.s.apis && !Watches(o.s.apis[t].watches, id)
            && Streaming(o.s) == Streaming(s) && o.inbox == if Streaming(s) then [] else inbox
  {
    var s1, o := EraseWatch(s, t, id), Destroyed(s, t, id, inbox);
    EraseMeaning(s.apis[t].watches, id);
    EraseKeepsInv(s, t, id);
    assert t in s1.apis && !Watches(s1.apis[t].watches, id) && Streaming(s1) == Streaming(s);
    hide EraseWatch, Queued;
    QueuedSteps(s1, t, inbox);
    EmitShape(s1, t);
    hide Inv, Emit;
    HearAllKeeps(Emit(s1, t), inbox);
  }

  // ---- Opening a stream ----

  /** What one type hears of `inbox`. */
  function AllHeard(a: Api, t: TypeUrl, inbox: seq<Response>): Api
    decreases |inbox|
  {
    if inbox == [] then a
    else AllHeard(if inbox[0].typeUrl == t then HeardApi(a, inbox[0]) else a, t, inbox[1..])
  }

  lemma {:induction false} HearAllByType(s: State, inbox: seq<Response>)
    ensures var s' := HearAll(s, inbox);
            && s' == s.(apis := s'.apis) && s'.apis.Keys == s.apis.Keys
            && forall t | t in s.apis :: s'.apis[t] == AllHeard(s.apis[t], t, inbox)
    decreases |inbox|
  {
    hide HeardApi;
    if inbox != [] {
      HearAllByType(Heard(s, inbox[0]), inbox[1..]);
    }
  }

  /** Hearing does not touch what a send puts on the request, nor the other way round. */
  lemma RefreshedHeard(a: Api, m: Response)
    ensures Refreshed(HeardApi(a, m)) == HeardApi(Refreshed(a), m)
  {
    hide NamesOf;
    RefreshedNoted(a, m);
    hide Noted;
  }

  lemma RefreshedNoted(a: Api, m: Response)
    ensures Noted(Refreshed(a), m) == Refreshed(Noted(a, m)) && Noted(a, m).watches == a.watches
  {
    hide NamesOf;
    if a.watches != [] {
    } else if m.resources == [] {
    }
  }

  lemma {:induction false} RefreshedAllHeard(a: Api, t: TypeUrl, inbox: seq<Response>)
    ensures Refreshed(AllHeard(a, t, inbox)) == AllHeard(Refreshed(a), t, inbox)
    decreases |inbox|
  {
    if inbox != [] {
      RefreshedHeard(a, inbox[0]);
      hide Refreshed, HeardApi;
      RefreshedAllHeard(if inbox[0].typeUrl == t then HeardApi(a, inbox[0]) else a, t, inbox[1..]);
    }
  }

  lemma {:induction false} ReplyAllHeard(a: Api, t: TypeUrl, inbox: seq<Response>)
    ensures var r, q := Reply(AllHeard(a, t, inbox)), Reply(a);
            r == q.(versionInfo := r.versionInfo, responseNonce := r.responseNonce)
    decreases |inbox|
  {
    if inbox != [] {
      var m := inbox[0];
      ReplyHeard(a, m);
      hide Reply, HeardApi;
      ReplyAllHeard(if m.typeUrl == t then HeardApi(a, m) else a, t, inbox[1..]);
    }
  }

  lemma ReplyHeard(a: Api, m: Response)
    ensures var r, q := Reply(HeardApi(a, m)), Reply(a);
            r == q.(versionInfo := r.versionInfo, responseNonce := r.responseNonce)
  {
    hide NamesOf;
  }

  lemma RepliesAlike(x: State, y: State, inbox: seq<Response>, ts: seq<TypeUrl>)
    requires x == HearAll(y, inbox) && forall t | t in ts :: t in y.apis
    ensures AlikeLogs(Replies(x, ts), Replies(y, ts))
  {
    HearAllByType(y, inbox);
    hide HearAll, AllHeard, Reply;
    forall j | 0 <= j < |ts|
      ensures AlikeWrite(Replies(x, ts)[j], Replies(y, ts)[j])
    {
      assert ts[j] in ts;
      ReplyAllHeard(y.apis[ts[j]], ts[j], inbox);
    }
  }

  /** Reading before the writes for `ts` or after them: only nonces and versions on the wire differ. */
  lemma ReadBeforeOrAfter(y: State, y': State, x: State, x': State, inbox: seq<Response>, ts: seq<TypeUrl>)
    requires x == HearAll(y, inbox) && Answered(y, y', ts) && Answered(x, x', ts) && forall t | t in ts :: t in y.apis
    ensures x' == HearAll(y', inbox).(log := x'.log) && AlikeLogs(x'.log, HearAll(y', inbox).log)
  {
    hide HearAll, AllHeard, Answered, Replies, AlikeLogs;
    HeardBeforeOrAfter(y, y', x, x', inbox, ts);
    OnlyApisAndLog(y, y', ts);
    OnlyApisAndLog(x, x', ts);
    RepliesAlike(x, y, inbox, ts);
    HearAllByType(y, inbox);
    HearAllByType(y', inbox);
    AlikeItself(y.log);
    AlikeConcat(y.log, y.log, Replies(x, ts), Replies(y, ts));
  }

  lemma OnlyApisAndLog(s: State, s': State, ts: seq<TypeUrl>)
    requires Answered(s, s', ts)
    ensures s' == s.(apis := s'.apis, log := s.log + Replies(s, ts))
  {
  }

  lemma HeardBeforeOrAfter(y: State, y': State, x: State, x': State, inbox: seq<Response>, ts: seq<TypeUrl>)
    requires x == HearAll(y, inbox) && Answered(y, y', ts) && Answered(x, x', ts)
    ensures x'.apis == HearAll(y', inbox).apis
  {
    HearAllByType(y, inbox);
    HearAllByType(y', inbox);
    hide HearAll, AllHeard, Refreshed, Replies;
    forall t | t in y.apis
      ensures x'.apis[t] == HearAll(y', inbox).apis[t]
    {
      RefreshedAllHeard(y.apis[t], t, inbox);
    }
  }

  /** The part of the establishment loop after the Cluster type, from a state that is still quiet. */
  lemma RestOfOpening(y: State, inbox: seq<Response>)
    requires Streaming(y) && y.queue == [] && !y.first && AllQuiet(y) && |y.subs| > 0
    requires (forall t | t in y.subs :: t in y.apis) && Provoked(y, inbox) == []
    ensures var x := HearAll(y, inbox);
            && x.queue == [] && x.subs == y.subs && SameShape(y, QueueSubscriptions(y, 1))
            && AllQueued(x, 1, []) == Outcome(QueueSubscriptions(x, 1), [], true)
            && QueueSubscriptions(x, 1) == HearAll(QueueSubscriptions(y, 1), inbox).(log := QueueSubscriptions(x, 1).log)
            && AlikeLogs(QueueSubscriptions(x, 1).log, HearAll(QueueSubscriptions(y, 1), inbox).log)
  {
    var x, ts := HearAll(y, inbox), y.subs[1..];
    HearAllKeeps(y, inbox);
    HearAllQuiet(y, inbox);
    hide HearAll, QueueSubscriptions, AllQueued, AlikeLogs, AllQuiet;
    assert forall t | t in ts :: t in y.subs;
    QueueRest(y, 1);
    QueueRest(x, 1);
    AllQueuedNothingToRead(x, 1);
    AnsweredShape(y, QueueSubscriptions(y, 1), ts);
    hide Answered;
    ReadBeforeOrAfter(y, QueueSubscriptions(y, 1), x, QueueSubscriptions(x, 1), inbox, ts);
  }

  lemma {:induction false} HearAllQuiet(s: State, inbox: seq<Response>)
    requires AllQuiet(s) && Provoked(s, inbox) == []
    ensures AllQuiet(HearAll(s, inbox))
    decreases |inbox|
  {
    if inbox != [] {
      var s1 := Heard(s, inbox[0]);
      assert AllQuiet(s1);
      HeardShape(s, inbox[0]);
      hide Heard;
      ProvokedByShape(s, s1, inbox[1..]);
      HearAllQuiet(s1, inbox[1..]);
    }
  }

  /** The state after the first write of a stream. */
  lemma FirstWrite(s: State)
    requires Inv(s) && !s.shut
    ensures var y := QueueDiscoveryRequest(Opener(s), CLUSTER);
            && Streaming(y) && y.queue == [] && !y.first && AllQuiet(y) && |y.subs| > 0
            && (forall t | t in y.subs :: t in y.apis)
            && QueueSubscriptions(y, 1) == Step(s, Establish(true))
            && SameShape(EnsureApi(Opener(s), CLUSTER), y)
            && Opener(s).subs[0] == CLUSTER && ApiOf(Opener(s), CLUSTER).pauses == 0
  {
    var y, o := QueueDiscoveryRequest(Opener(s), CLUSTER), Opened(s);
    OpenFirst(s);
    FirstWriteShape(s);
    OpenedIsQuiet(s);
    hide Inv, NamesOf, QueueDiscoveryRequest, Opened, OpeningRequest;
    assert y.apis == o.apis[CLUSTER := o.apis[CLUSTER].(request := OpeningRequest(s))] && y.subs == o.subs;
    FirstOfLoop(s, y);
  }

  lemma FirstOfLoop(s: State, y: State)
    requires Inv(s) && y == QueueDiscoveryRequest(Opener(s), CLUSTER) && y.queue == [] && |y.subs| > 0
    ensures QueueSubscriptions(y, 1) == Step(s, Establish(true))
    ensures Opener(s).subs[0] == CLUSTER
  {
    hide QueueDiscoveryRequest;
  }

  lemma OpenedIsQuiet(s: State)
    requires Inv(s) && !s.shut
    ensures var o := Opened(s);
            && Streaming(o) && o.queue == [] && !o.first && |o.subs| > 0 && CLUSTER in o.apis && AllQuiet(o)
            && forall t | t in o.subs :: t in o.apis
    ensures ApiOf(Opener(s), CLUSTER).pauses == 0
  {
    InvOpened(s);
    forall t | t in Opened(s).subs
      ensures t in Opened(s).apis
    {
      ListedIsKnown(s, t);
    }
  }

  lemma FirstWriteShape(s: State)
    requires Inv(s) && !s.shut && CLUSTER in Opened(s).apis
    ensures var o := Opened(s);
            SameShape(EnsureApi(Opener(s), CLUSTER), o.(apis := o.apis[CLUSTER := o.apis[CLUSTER].(request := OpeningRequest(s))]))
  {
    hide NamesOf;
  }

  lemma AnsweredShape(s: State, s': State, ts: seq<TypeUrl>)
    requires Answered(s, s', ts)
    ensures SameShape(s, s')
  {
    hide NamesOf, Replies;
  }

  /** With the inbox read right after the first write: how opening a stream ends. */
  lemma OpeningOutcome(s: State, arriving: seq<Response>)
    requires Inv(s) && !s.shut
    ensures var o, s' := Established(s, arriving), Step(s, Establish(true));
            && o.inbox == [] && (o.ok <==> Provoked(s', arriving) == [])
            && (o.ok ==> o.s == HearAll(s', arriving).(log := o.s.log) && AlikeLogs(o.s.log, HearAll(s', arriving).log))
  {
    var s0 := Opener(s);
    var y := QueueDiscoveryRequest(s0, CLUSTER);
    FirstWrite(s);
    hide Step, QueueDiscoveryRequest, QueueSubscriptions, Queued, HearAll, AlikeLogs, Inv;
    QueuedSilently(s0, CLUSTER, arriving);
    QueuedKeepsMeasure(s0, CLUSTER, arriving);
    var o1 := Queued(s0, CLUSTER, arriving);
    ProvokedByShape(EnsureApi(s0, CLUSTER), y, arriving);
    assert Established(s, arriving) == if o1.ok then AllQueued(o1.s, 1, o1.inbox) else o1;
    NothingProvokedAtFirst(s, y, arriving);
    if o1.ok {
      RestOfOpening(y, arriving);
    }
  }

  lemma NothingProvokedAtFirst(s: State, y: State, arriving: seq<Response>)
    requires Streaming(y) && y.queue == [] && !y.first && AllQuiet(y) && |y.subs| > 0
    requires (forall t | t in y.subs :: t in y.apis) && QueueSubscriptions(y, 1) == Step(s, Establish(true))
    ensures Provoked(y, arriving) == Provoked(Step(s, Establish(true)), arriving)
  {
    hide Step, QueueSubscriptions, HearAll, AlikeLogs;
    RestOfOpening(y, []);
    ProvokedByShape(y, QueueSubscriptions(y, 1), arriving);
  }

  lemma {:induction false} AllQueuedAfterShutdown(s: State, i: nat, inbox: seq<Response>)
    requires s.queue == [] && i <= |s.subs| && s.shut && AllQuiet(s)
    requires forall j | i <= j < |s.subs| :: s.subs[j] in s.apis
    ensures AllQueued(s, i, inbox) == Outcome(s, inbox, true)
    decreases |s.subs| - i
  {
    hide SendDiscoveryRequest, DrainRequests, QueueDiscoveryRequest;
    if i < |s.subs| {
      QueueIsEmit(s, s.subs[i]);
      AllQueuedAfterShutdown(s, i + 1, inbox);
    }
  }

  lemma InvOfOtherLog(s: State, s': State)
    requires Inv(s) && s.epoch > 0 && s' == s.(log := s'.log)
    ensures Inv(s')
  {
    forall t
      ensures Listings(s', t) == Listings(s, t)
    {
    }
  }

  lemma {:induction false} AlikeTransitive(a: seq<Sent>, b: seq<Sent>, c: seq<Sent>)
    requires AlikeLogs(a, b) && AlikeLogs(b, c)
    ensures AlikeLogs(a, c)
  {
  }

  lemma AtOtherLog(s: State, h: seq<Event>, s': State)
    requires At(s, h) && s.epoch > 0 && s' == s.(log := s'.log) && AlikeLogs(s'.log, s.log)
    ensures At(s', h)
  {
    hide LegalRun, Run;
    InvOfOtherLog(s, s');
    AlikeTransitive(s'.log, s.log, Run(h).log);
    hide Inv, AlikeLogs;
  }

  /**
    Opening a stream and reading right after the first write comes to opening the stream and
    receiving afterwards; only the nonces and versions of the later writes tell the difference.
   */
  lemma EstablishedIsRun(s: State, h: seq<Event>, arriving: seq<Response>)
    requires At(s, h) && Established(s, arriving).ok
    ensures var o := Established(s, arriving);
            At(o.s, h + [Establish(true)] + Receives(ReadBy(arriving, o.inbox)))
  {
    var o, s' := Established(s, arriving), Step(s, Establish(true));
    if s.shut {
      EstablishAfterShutdown(s);
      OpenerIsQuiet(s);
      hide Step, LegalRun, Run, AlikeLogs, Inv;
      AllQueuedAfterShutdown(Opener(s), 0, arriving);
      hide AllQueued;
      StepsAndReadsIsRun(s, h, Establish(true), arriving, o);
    } else {
      OpeningOutcome(s, arriving);
      hide Step, LegalRun, Run, AlikeLogs, Established;
      AtStep(s, h, Establish(true));
      HearAllIsReceive(s', h + [Establish(true)], arriving);
      HearAllKeeps(s', arriving);
      OpenedEpoch(s);
      hide HearAll, Inv, At;
      AtOtherLog(HearAll(s', arriving), h + [Establish(true)] + Receives(arriving), o.s);
      assert ReadBy(arriving, []) == arriving;
    }
  }

  lemma OpenerIsQuiet(s: State)
    requires Inv(s)
    ensures var s0 := Opener(s);
            s0.queue == [] && AllQuiet(s0) && (s.shut ==> s0.shut && forall j | 0 <= j < |s0.subs| :: s0.subs[j] in s0.apis)
  {
    if s.shut {
      forall t | t in s.subs
        ensures t in s.apis
      {
        assert multiset(s.subs)[t] > 0;
      }
    }
  }

  lemma OpenedEpoch(s: State)
    requires Inv(s) && !s.shut
    ensures Step(s, Establish(true)).epoch > 0
  {
    hide Step;
    EstablishmentTrace(s);
  }

  // ---- What the runs guarantee ----

  lemma {:induction false} AlikeLines(a: seq<Sent>, b: seq<Sent>, t: TypeUrl)
    requires AlikeLogs(a, b)
    ensures |Lines(a, t)| == |Lines(b, t)|
    ensures forall i | 0 <= i < |Lines(a, t)| ::
              Lines(a, t)[i].stream == Lines(b, t)[i].stream && Lines(a, t)[i].names == Lines(b, t)[i].names
  {
    if a != [] {
      var n := |a| - 1;
      assert AlikeWrite(a[n], b[n]);
      AlikeLines(a[..n], b[..n], t);
    }
  }

  /**
    On a live stream every subscribed type has been written, and its last write names exactly
    what its live watchers watch, also when the client reads in the middle of its sends.
   */
  lemma ConvergesWhileReading(s: State, h: seq<Event>, t: TypeUrl)
    requires At(s, h) && Streaming(s) && t in s.subs
    ensures var lines := Lines(s.log, t);
            && lines != []
            && lines[|lines| - 1].stream == s.epoch
            && NoDuplicates(lines[|lines| - 1].names)
            && InTouchOrder(lines[|lines| - 1].names, Live(h, t), h, t)
            && forall x :: x in lines[|lines| - 1].names <==> Wanted(h, t, x)
  {
    hide LegalRun, Run, Inv, AlikeLogs, Lines, NamesOf, Wanted, InTouchOrder;
    AlikeLines(s.log, Run(h).log, t);
    Convergence(h, t);
  }

  /** Type, opening write and node of every write, also when the client reads in the middle of its sends. */
  lemma WireWhileReading(s: State, h: seq<Event>, i: nat)
    requires At(s, h) && i < |s.log|
    ensures s.log[i].request.typeUrl == s.log[i].item && s.log[i].item in s.subs
    ensures Opens(s.log, i) ==> s.log[i].item == CLUSTER
    ensures s.log[i].request.node == if i == 0 && JoinsByStream(h) then Some(NODE) else None
  {
    hide LegalRun, Run, Inv, JoinsByStream;
    Wire(h);
    assert forall j | 0 <= j <= i :: AlikeWrite(s.log[j], Run(h).log[j]);
    assert WellFormedWrite(Run(h), i, JoinsByStream(h));
  }
}
