/**
  What every reachable state of the multiplexer satisfies, and the shape of the writes
  that each call makes from such a state.
 */
module MuxInvariant {
  import opened ResourceNames
  import opened MuxModel

  /** The request that a type with state `a` sends when no node goes with it. */
  ghost function Reply(a: Api): Request {
    a.request.(resourceNames := NamesOf(a.watches), node := None)
  }

  ghost function Refreshed(a: Api): Api {
    a.(request := Reply(a))
  }

  /** One write for each element of `ts`, in order. */
  ghost function Replies(s: State, ts: seq<TypeUrl>): (r: seq<Sent>)
    ensures |r| == |ts|
    ensures forall j | 0 <= j < |ts| :: r[j] == Sent(s.epoch, ts[j], Reply(ApiOf(s, ts[j])))
  {
    seq(|ts|, j requires 0 <= j < |ts| => Sent(s.epoch, ts[j], Reply(ApiOf(s, ts[j]))))
  }

  ghost predicate Quiet(a: Api) {
    a.pauses == 0 && !a.pending && !a.mustSendNode
  }

  ghost predicate AllQuiet(s: State) {
    forall t | t in s.apis :: Quiet(s.apis[t])
  }

  predicate DistinctIds(ws: seq<Watch>) {
    forall i, j | 0 <= i < j < |ws| :: ws[i].id != ws[j].id
  }

  ghost predicate ApiInv(a: Api, t: TypeUrl) {
    && Quiet(a)
    && DistinctIds(a.watches)
    && a.request.node == None
    && (a.subscribed ==> a.request.typeUrl == t)
  }

  /** How often `t` is listed in `subscriptions_`. */
  function Listings(s: State, t: TypeUrl): nat {
    (if t == CLUSTER then 1 else 0) + (if ApiOf(s, t).subscribed then 1 else 0)
  }

  ghost predicate Bookkeeping(s: State) {
    && |s.subs| > 0 && s.subs[0] == CLUSTER
    && forall t :: multiset(s.subs)[t] == Listings(s, t)
  }

  ghost predicate Inv(s: State) {
    && s.queue == []
    && (forall t | t in s.apis :: ApiInv(s.apis[t], t))
    && Bookkeeping(s)
    && (forall t | t in s.apis :: s.apis[t].subscribed)
    && (s.epoch == 0 ==> !s.up && !s.shut && s.first && s.log == [])
    && (s.epoch > 0 ==> CLUSTER in s.apis)
    && (s.up && !s.shut ==> !s.first)
  }

  // ---- Queueing one request ----

  /** What queueing `t` comes to once the first request of the stream has gone out. */
  ghost function Emit(s: State, t: TypeUrl): State {
    if s.up && !s.shut then
      var a := ApiOf(s, t);
      s.(apis := s.apis[t := Refreshed(a)], log := s.log + [Sent(s.epoch, t, Reply(a))])
    else
      s
  }

  lemma QueueIsEmit(s: State, t: TypeUrl)
    requires s.queue == [] && t in s.apis && Quiet(s.apis[t])
    requires s.up && !s.shut ==> !s.first
    ensures QueueDiscoveryRequest(s, t) == Emit(s, t)
  {
    if s.up {
      var s1 := s.(queue := [t]);
      assert s1 == EnsureApi(s, t).(queue := s.queue + [t]);
      var s2 := SendDiscoveryRequest(s1, t);
      assert s2.queue[1..] == [];
      assert DrainRequests(s1) == s2.(queue := []);
    }
  }

  // ---- Opening a stream ----

  /** `s'` is `s` after one write for each element of `ts`, in order. */
  ghost predicate Answered(s: State, s': State, ts: seq<TypeUrl>) {
    && s' == s.(apis := s'.apis, log := s.log + Replies(s, ts))
    && s'.apis.Keys == s.apis.Keys
    && forall t | t in s.apis :: s'.apis[t] == if t in ts then Refreshed(s.apis[t]) else s.apis[t]
  }

  lemma AnsweredOne(s: State, t: TypeUrl, s': State, ts: seq<TypeUrl>)
    requires s.up && !s.shut && t in s.apis
    requires Answered(Emit(s, t), s', ts)
    ensures Answered(s, s', [t] + ts)
  {
    AnsweredLog(s, t, ts);
    RefreshedTwice(s.apis[t]);
    hide Reply, Refreshed, Replies;
  }

  lemma AnsweredLog(s: State, t: TypeUrl, ts: seq<TypeUrl>)
    requires s.up && !s.shut && t in s.apis
    ensures Emit(s, t).log + Replies(Emit(s, t), ts) == s.log + Replies(s, [t] + ts)
  {
    var s1 := Emit(s, t);
    RefreshedTwice(s.apis[t]);
    hide Reply, Refreshed;
    RepliesOne(s, t, ts);
    assert Replies(s1, ts) == Replies(s, ts);
    hide Replies;
    assert s1.log + Replies(s, ts) == s.log + ([Sent(s.epoch, t, Reply(s.apis[t]))] + Replies(s, ts));
  }

  lemma RefreshedTwice(a: Api)
    ensures Reply(Refreshed(a)) == Reply(a) && Refreshed(Refreshed(a)) == Refreshed(a)
  {
    hide NamesOf;
  }

  lemma RepliesOne(s: State, t: TypeUrl, ts: seq<TypeUrl>)
    ensures Replies(s, [t] + ts) == [Sent(s.epoch, t, Reply(ApiOf(s, t)))] + Replies(s, ts)
  {
    hide Reply;
  }

  lemma {:induction false} QueueRest(s: State, i: nat)
    requires s.queue == [] && i <= |s.subs|
    requires s.up && !s.shut && !s.first
    requires AllQuiet(s)
    requires forall j | i <= j < |s.subs| :: s.subs[j] in s.apis
    ensures Answered(s, QueueSubscriptions(s, i), s.subs[i..])
    decreases |s.subs| - i
  {
    hide NamesOf, SendDiscoveryRequest, DrainRequests, QueueDiscoveryRequest;
    if i == |s.subs| {
      assert s.log + Replies(s, s.subs[i..]) == s.log;
    } else {
      var t := s.subs[i];
      QueueIsEmit(s, t);
      QueueRest(Emit(s, t), i + 1);
      AnsweredOne(s, t, QueueSubscriptions(s, i), s.subs[i + 1..]);
      assert s.subs[i..] == [t] + s.subs[i + 1..];
    }
  }

  /** The state in which a stream starts: nonces cleared, the Cluster type subscribed. */
  ghost function Opened(s: State): State {
    var s0 := s.(up := true, first := false, apis := ClearNonce(s.apis), epoch := s.epoch + 1);
    if CLUSTER in s.apis then s0 else Subscribe(s0, CLUSTER)
  }

  /** The request that opens a stream: the node goes with it only on joining. */
  ghost function OpeningRequest(s: State): Request {
    Reply(ApiOf(Opened(s), CLUSTER)).(node := if CLUSTER in s.apis then None else Some(NODE))
  }

  /** The writes that open a stream, in order. */
  ghost function Opening(s: State): (ws: seq<Sent>)
    requires Bookkeeping(s)
    ensures |ws| == |Opened(s).subs|
  {
    var o := Opened(s);
    [Sent(o.epoch, CLUSTER, OpeningRequest(s))] + Replies(o, o.subs[1..])
  }

  ghost function Opener(s: State): State {
    s.(up := true, first := true, apis := ClearNonce(s.apis), queue := [], epoch := s.epoch + 1)
  }

  /** The first iteration of the establishment loop: the Cluster type, `first` raised. */
  lemma OpenFirst(s: State)
    requires Inv(s) && !s.shut
    ensures var o := Opened(s);
            && CLUSTER in o.apis
            && QueueDiscoveryRequest(Opener(s), CLUSTER) ==
               o.(apis := o.apis[CLUSTER := o.apis[CLUSTER].(request := OpeningRequest(s))],
                  log := s.log + [Sent(o.epoch, CLUSTER, OpeningRequest(s))])
  {
    hide NamesOf;
    var s0 := Opener(s);
    var s1 := EnsureApi(s0, CLUSTER).(queue := [CLUSTER]);
    assert s1.queue == s0.queue + [CLUSTER];
    var s2 := SendDiscoveryRequest(s1, CLUSTER);
    assert s2.queue[1..] == [];
    assert DrainRequests(s1) == s2.(queue := []);
  }

  lemma ListedIsKnown(s: State, t: TypeUrl)
    requires Inv(s) && t in Opened(s).subs
    ensures t in Opened(s).apis
  {
    if t in s.subs {
      assert multiset(s.subs)[t] > 0;
    }
  }

  /** Writing `c` first, with or without a node, then one write for each of `ts`. */
  lemma AnsweredAfter(o: State, c: TypeUrl, r: Request, x: Sent, s': State, ts: seq<TypeUrl>)
    requires c in o.apis && r == Reply(o.apis[c]).(node := r.node)
    requires r.node == None || c in ts
    requires forall t | t in ts :: t in o.apis
    requires Answered(o.(apis := o.apis[c := o.apis[c].(request := r)], log := o.log + [x]), s', ts)
    ensures s' == o.(apis := s'.apis, log := o.log + ([x] + Replies(o, ts)))
    ensures s'.apis.Keys == o.apis.Keys
    ensures forall t | t in o.apis :: s'.apis[t] == if t == c || t in ts then Refreshed(o.apis[t]) else o.apis[t]
  {
    var a := o.apis[c].(request := r);
    var s1 := o.(apis := o.apis[c := a], log := o.log + [x]);
    RefreshedOnce(o.apis[c], r.node);
    hide Reply, Refreshed;
    RepliesAfter(o, c, a, s1, ts);
    hide Replies;
    assert s1.log + Replies(o, ts) == o.log + ([x] + Replies(o, ts));
  }

  lemma RepliesAfter(o: State, c: TypeUrl, a: Api, s1: State, ts: seq<TypeUrl>)
    requires c in o.apis && Reply(a) == Reply(o.apis[c]) && s1.apis == o.apis[c := a] && s1.epoch == o.epoch
    ensures Replies(s1, ts) == Replies(o, ts)
  {
    hide Reply;
  }

  /** The node of the last request does not matter to the next. */
  lemma RefreshedOnce(a: Api, node: Option<Node>)
    ensures var b := a.(request := Reply(a).(node := node));
            && Reply(b) == Reply(a) && Refreshed(b) == Refreshed(a)
            && (node == None ==> b == Refreshed(a))
  {
    hide NamesOf;
  }

  /**
    The writes made by establishing a stream are exactly the final subscription list in
    order, each for its own type; only the first can carry the node.
   */
  lemma EstablishmentTrace(s: State)
    requires Inv(s) && !s.shut
    ensures var s' := Step(s, Establish(true));
            var o := Opened(s);
            && s' == o.(apis := s'.apis, log := s.log + Opening(s))
            && s'.apis.Keys == o.apis.Keys
            && forall t | t in o.apis :: s'.apis[t] == if t in o.subs then Refreshed(o.apis[t]) else o.apis[t]
  {
    hide NamesOf, SendDiscoveryRequest, DrainRequests, QueueDiscoveryRequest, Answered;
    var o := Opened(s);
    OpenFirst(s);
    var s1 := QueueDiscoveryRequest(Opener(s), CLUSTER);
    assert Step(s, Establish(true)) == QueueSubscriptions(s1, 1);
    assert o.subs == [CLUSTER] + o.subs[1..];
    forall t | t in o.subs
      ensures t in o.apis
    {
      ListedIsKnown(s, t);
    }
    QueueRest(s1, 1);
    if CLUSTER !in s.apis {
      assert o.subs[1..][|o.subs| - 2] == CLUSTER;
    }
    AnsweredAfter(o, CLUSTER, OpeningRequest(s), Sent(o.epoch, CLUSTER, OpeningRequest(s)),
                  QueueSubscriptions(s1, 1), o.subs[1..]);
  }

  /** After `shutdown`, opening a stream only clears the nonces. */
  lemma EstablishAfterShutdown(s: State)
    requires Inv(s) && s.shut
    ensures Step(s, Establish(true)) == Opener(s)
  {
    forall t | t in s.subs
      ensures t in s.apis
    {
      assert multiset(s.subs)[t] > 0;
    }
    QueueNothing(Opener(s), 0);
  }

  lemma {:induction false} QueueNothing(s: State, i: nat)
    requires s.queue == [] && i <= |s.subs| && s.shut && AllQuiet(s)
    requires forall j | i <= j < |s.subs| :: s.subs[j] in s.apis
    ensures QueueSubscriptions(s, i) == s
    decreases |s.subs| - i
  {
    hide SendDiscoveryRequest, DrainRequests, QueueDiscoveryRequest;
    if i < |s.subs| {
      QueueIsEmit(s, s.subs[i]);
      QueueNothing(s, i + 1);
    }
  }

  // ---- Every call keeps the invariant ----

  lemma EraseMeaning(ws: seq<Watch>, id: nat)
    requires DistinctIds(ws)
    ensures DistinctIds(Erase(ws, id)) && !Watches(Erase(ws, id), id)
    ensures forall w :: w in Erase(ws, id) <==> w in ws && w.id != id
  {
    var i := IndexOf(ws, id);
    if i < |ws| {
      RemovedMeaning(ws, i, Erase(ws, id));
    }
  }

  lemma RemovedMeaning(ws: seq<Watch>, i: nat, r: seq<Watch>)
    requires DistinctIds(ws) && i < |ws| && r == ws[..i] + ws[i + 1..]
    ensures DistinctIds(r) && !Watches(r, ws[i].id)
    ensures forall w :: w in r <==> w in ws && w.id != ws[i].id
  {
    assert forall j | 0 <= j < |r| :: r[j] == ws[if j < i then j else j + 1];
    forall w
      ensures w in r <==> w in ws && w.id != ws[i].id
    {
      if w in ws && w.id != ws[i].id {
        var j :| 0 <= j < |ws| && ws[j] == w;
        assert r[if j < i then j else j - 1] == w;
      }
    }
  }

  lemma InvEmit(s: State, t: TypeUrl)
    requires Inv(s) && t in s.apis
    ensures QueueDiscoveryRequest(s, t) == Emit(s, t) && Inv(Emit(s, t))
  {
    hide NamesOf, SendDiscoveryRequest, DrainRequests, QueueDiscoveryRequest;
    QueueIsEmit(s, t);
    var s' := Emit(s, t);
    forall u
      ensures Listings(s', u) == Listings(s, u)
    {
    }
  }

  /** Replacing one type's state by one that is as good and as subscribed keeps the invariant. */
  lemma InvReplace(s: State, t: TypeUrl, a: Api)
    requires Inv(s) && t in s.apis && ApiInv(a, t) && a.subscribed == s.apis[t].subscribed
    ensures Inv(WithApi(s, t, a))
  {
    var s' := WithApi(s, t, a);
    forall u
      ensures Listings(s', u) == Listings(s, u)
    {
    }
  }

  lemma BookkeepingJoin(s: State, t: TypeUrl, w: Watch)
    requires Bookkeeping(s)
    ensures Bookkeeping(Subscribe(PushWatch(s, t, w), t))
  {
    var s' := Subscribe(PushWatch(s, t, w), t);
    forall u
      ensures multiset(s'.subs)[u] == Listings(s', u)
    {
      assert multiset(s.subs)[u] == Listings(s, u);
    }
    assert s'.subs[0] == s.subs[0];
  }

  lemma InvJoin(s: State, t: TypeUrl, w: Watch)
    requires Inv(s) && !Watches(ApiOf(s, t).watches, w.id)
    ensures Inv(Subscribe(PushWatch(s, t, w), t))
  {
    BookkeepingJoin(s, t, w);
    hide Bookkeeping;
  }

  lemma InvErase(s: State, t: TypeUrl, id: nat)
    requires Inv(s) && t in s.apis
    ensures Inv(DoDestroy(s, t, id)) && t in DoDestroy(s, t, id).apis
    ensures DoDestroy(s, t, id) ==
            if ResourcesOf(s.apis[t].watches, id) != {} then Emit(EraseWatch(s, t, id), t) else EraseWatch(s, t, id)
    ensures !Watches(DoDestroy(s, t, id).apis[t].watches, id)
  {
    hide NamesOf, QueueDiscoveryRequest;
    EraseMeaning(s.apis[t].watches, id);
    var a := s.apis[t];
    InvReplace(s, t, a.(watches := Erase(a.watches, id)));
    InvEmit(EraseWatch(s, t, id), t);
  }

  lemma InvUpdate(s: State, t: TypeUrl, id: nat, rs: set<Name>)
    requires Inv(s) && t in s.apis
    ensures Inv(DoUpdate(s, t, id, rs))
    ensures DoUpdate(s, t, id, rs) == Emit(PushWatch(DoDestroy(s, t, id), t, Watch(id, rs)), t)
  {
    hide NamesOf, QueueDiscoveryRequest, DoDestroy;
    InvErase(s, t, id);
    var s1 := DoDestroy(s, t, id);
    var a := s1.apis[t];
    InvReplace(s1, t, a.(watches := [Watch(id, rs)] + a.watches));
    InvEmit(PushWatch(s1, t, Watch(id, rs)), t);
  }

  /** The state of a type after a response `m` has been noted, before any reply. */
  function Noted(a: Api, m: Response): Api {
    var n := a.(request := a.request.(responseNonce := m.nonce));
    if a.watches != [] then n.(previouslyFetchedData := true)
    else if m.resources == [] then n.(request := n.request.(versionInfo := m.versionInfo))
    else n
  }

  /** Whether a response to a known type is answered. */
  predicate Answers(a: Api, m: Response) {
    a.watches != [] || m.resources != []
  }

  /** A live stream: up, and not shut down. */
  predicate Streaming(s: State) {
    s.up && !s.shut
  }

  /** On a live stream, `m` makes the client queue a request and drain. */
  predicate Provoking(s: State, m: Response) {
    m.typeUrl in s.apis && Answers(s.apis[m.typeUrl], m) && s.apis[m.typeUrl].pauses == 0
  }

  lemma InvReceive(s: State, m: Response)
    requires Inv(s)
    ensures Inv(OnDiscoveryResponse(s, m))
    ensures m.typeUrl !in s.apis ==> OnDiscoveryResponse(s, m) == s
    ensures m.typeUrl in s.apis ==>
              var s1 := WithApi(s, m.typeUrl, Noted(s.apis[m.typeUrl], m));
              OnDiscoveryResponse(s, m) == if Answers(s.apis[m.typeUrl], m) then Emit(s1, m.typeUrl) else s1
  {
    hide NamesOf, QueueDiscoveryRequest;
    var t := m.typeUrl;
    if t in s.apis {
      var a := Noted(s.apis[t], m);
      InvReplace(s, t, a);
      InvEmit(WithApi(s, t, a), t);
    }
  }

  lemma BookkeepingOpened(s: State)
    requires Inv(s)
    ensures Bookkeeping(Opener(s)) && Bookkeeping(Opened(s))
  {
    var o := Opened(s);
    forall u
      ensures multiset(s.subs)[u] == Listings(Opener(s), u) && multiset(o.subs)[u] == Listings(o, u)
    {
      assert multiset(s.subs)[u] == Listings(s, u);
    }
    assert o.subs[0] == s.subs[0];
  }

  lemma InvOpened(s: State)
    requires Inv(s)
    ensures Inv(if s.shut then Opener(s) else Opened(s))
  {
    BookkeepingOpened(s);
    hide Bookkeeping;
    var o := Opened(s);
    forall t | t in s.apis
      ensures t in o.apis && ApiInv(o.apis[t], t) && o.apis[t].subscribed == s.apis[t].subscribed
      ensures t in Opener(s).apis && ApiInv(Opener(s).apis[t], t)
    {
      assert ApiInv(s.apis[t], t);
    }
  }

  lemma InvRefreshed(o: State, s': State)
    requires Inv(o) && o.epoch > 0
    requires s' == o.(apis := s'.apis, log := s'.log) && s'.apis.Keys == o.apis.Keys
    requires forall t | t in o.apis :: s'.apis[t] == Refreshed(o.apis[t]) || s'.apis[t] == o.apis[t]
    ensures Inv(s')
  {
    hide NamesOf;
    forall u
      ensures Listings(s', u) == Listings(o, u)
    {
    }
  }

  lemma InvEstablish(s: State)
    requires Inv(s)
    ensures Inv(Step(s, Establish(true)))
  {
    hide NamesOf, OnStreamEstablished, Inv;
    InvOpened(s);
    if s.shut {
      EstablishAfterShutdown(s);
    } else {
      EstablishmentTrace(s);
      InvRefreshed(Opened(s), Step(s, Establish(true)));
    }
  }

  lemma InvStep(s: State, e: Event)
    requires Inv(s) && Legal(s, e)
    ensures Inv(Step(s, e))
  {
    hide NamesOf, QueueDiscoveryRequest, DoDestroy, DoUpdate, OnDiscoveryResponse;
    match e
    case Establish(ok) =>
      if ok { InvEstablish(s); }
    case AddWatch(t, id, rs) =>
      InvJoin(s, t, Watch(id, rs));
      InvEmit(Subscribe(PushWatch(s, t, Watch(id, rs)), t), t);
    case Update(t, id, rs) => InvUpdate(s, t, id, rs);
    case Destroy(t, id) => InvErase(s, t, id);
    case Receive(m) => InvReceive(s, m);
    case Shutdown =>
  }

  /** The invariant holds in every reachable state. */
  lemma {:induction false} Reachable(h: seq<Event>)
    requires LegalRun(h)
    ensures Inv(Run(h))
  {
    hide Step;
    if h == [] {
      assert multiset(INIT.subs)[CLUSTER] == 1;
    } else {
      Reachable(h[..|h| - 1]);
      InvStep(Run(h[..|h| - 1]), h[|h| - 1]);
    }
  }
}
