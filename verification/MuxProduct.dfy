/**
  The multiplexer is a product of independent single-type clients. `Single` is a client
  for one resource type only: no queue, no subscription list, no other types. What the
  multiplexer writes for a type is what that client writes.
 */
module MuxProduct {
  import opened ResourceNames
  import opened MuxModel
  import opened MuxInvariant

  /** A write as the server sees it, node aside. */
  datatype Line = Line(stream: nat, typeUrl: TypeUrl, version: string, nonce: string, names: seq<Name>)

  datatype Single = Single(
    up: bool,
    shut: bool,
    epoch: nat,
    known: bool,
    watches: seq<Watch>,
    version: string,
    nonce: string,
    log: seq<Line>)

  const SINGLE_INIT := Single(false, false, 0, false, [], "", "", [])

  ghost function Say(t: TypeUrl, c: Single): Single {
    if c.up && !c.shut then
      c.(log := c.log + [Line(c.epoch, t, c.version, c.nonce, NamesOf(c.watches))])
    else
      c
  }

  ghost function Leave(t: TypeUrl, c: Single, id: nat): Single {
    var c1 := c.(watches := Erase(c.watches, id));
    if ResourcesOf(c.watches, id) != {} then Say(t, c1) else c1
  }

  ghost function Enter(t: TypeUrl, c: Single, w: Watch): Single {
    Say(t, c.(watches := [w] + c.watches))
  }

  /** Opening a stream: the Cluster type speaks twice, any other known type once. */
  ghost function Open(t: TypeUrl, c: Single): Single {
    var c1 := c.(up := true, epoch := c.epoch + 1, nonce := "", known := c.known || t == CLUSTER);
    if t == CLUSTER then Say(t, Say(t, c1)) else if c.known then Say(t, c1) else c1
  }

  ghost function Hear(t: TypeUrl, c: Single, m: Response): Single {
    if !c.known then c
    else if c.watches != [] then Say(t, c.(nonce := m.nonce))
    else if m.resources != [] then Say(t, c.(nonce := m.nonce))
    else c.(nonce := m.nonce, version := m.versionInfo)
  }

  /** The steps of the client for `t`. */
  ghost function SingleStep(t: TypeUrl, c: Single, e: Event): Single {
    match e
    case Establish(ok) => if ok then Open(t, c) else c.(up := false)
    case AddWatch(_, id, rs) => Enter(t, c.(known := true), Watch(id, rs))
    case Update(_, id, rs) => Enter(t, Leave(t, c, id), Watch(id, rs))
    case Destroy(_, id) => Leave(t, c, id)
    case Receive(m) => Hear(t, c, m)
    case Shutdown => c.(shut := true)
  }

  ghost function SingleRun(t: TypeUrl, h: seq<Event>): Single {
    if h == [] then SINGLE_INIT else SingleStep(t, SingleRun(t, h[..|h| - 1]), h[|h| - 1])
  }

  /** Stream and shutdown events concern every type, the others one type. */
  predicate Concerns(e: Event, t: TypeUrl) {
    match e
    case Establish(_) => true
    case Shutdown => true
    case AddWatch(u, _, _) => u == t
    case Update(u, _, _) => u == t
    case Destroy(u, _) => u == t
    case Receive(m) => m.typeUrl == t
  }

  function EventsFor(h: seq<Event>, t: TypeUrl): seq<Event> {
    if h == [] then
      []
    else
      var front, e := EventsFor(h[..|h| - 1], t), h[|h| - 1];
      if Concerns(e, t) then front + [e] else front
  }

  function LineOf(x: Sent): Line {
    Line(x.stream, x.request.typeUrl, x.request.versionInfo, x.request.responseNonce, x.request.resourceNames)
  }

  /** The writes for `t` in a log. */
  function Lines(log: seq<Sent>, t: TypeUrl): seq<Line> {
    if log == [] then
      []
    else
      var front, x := Lines(log[..|log| - 1], t), log[|log| - 1];
      if x.item == t then front + [LineOf(x)] else front
  }

  /** The part of the multiplexer that belongs to `t`. */
  function Part(s: State, t: TypeUrl): Single {
    var a := ApiOf(s, t);
    Single(s.up, s.shut, s.epoch, t in s.apis, a.watches,
           a.request.versionInfo, a.request.responseNonce, Lines(s.log, t))
  }

  // ---- Logs ----

  lemma {:induction false} LinesConcat(a: seq<Sent>, b: seq<Sent>, t: TypeUrl)
    ensures Lines(a + b, t) == Lines(a, t) + Lines(b, t)
  {
    if b == [] {
      assert a + b == a;
    } else {
      assert (a + b)[..|a + b| - 1] == a + b[..|b| - 1];
      LinesConcat(a, b[..|b| - 1], t);
    }
  }

  lemma LinesOne(log: seq<Sent>, x: Sent, t: TypeUrl)
    ensures Lines(log + [x], t) == if x.item == t then Lines(log, t) + [LineOf(x)] else Lines(log, t)
  {
    assert (log + [x])[..|log|] == log;
  }

  function Copies(x: Line, n: nat): seq<Line> {
    seq(n, _ => x)
  }

  /** Among one write per element of `ts`, those for `t` are equal, one per occurrence. */
  lemma {:induction false} LinesOfReplies(s: State, ts: seq<TypeUrl>, t: TypeUrl)
    ensures Lines(Replies(s, ts), t) ==
            Copies(LineOf(Sent(s.epoch, t, Reply(ApiOf(s, t)))), multiset(ts)[t])
  {
    hide NamesOf;
    if ts != [] {
      var front, u := ts[..|ts| - 1], ts[|ts| - 1];
      LinesOfReplies(s, front, t);
      assert ts == front + [u];
      assert Replies(s, ts) == Replies(s, front) + [Sent(s.epoch, u, Reply(ApiOf(s, u)))];
      LinesOne(Replies(s, front), Sent(s.epoch, u, Reply(ApiOf(s, u))), t);
    }
  }

  // ---- Simulation, call by call ----

  /** An answer for `u` is heard by `u`'s part and by no other. */
  lemma PartEmit(s: State, u: TypeUrl, t: TypeUrl)
    requires u in s.apis
    requires s.up && !s.shut ==> s.apis[u].request.typeUrl == u
    ensures Part(Emit(s, u), t) == if t == u then Say(t, Part(s, t)) else Part(s, t)
  {
    hide NamesOf;
    if s.up && !s.shut {
      LinesOne(s.log, Sent(s.epoch, u, Reply(s.apis[u])), t);
    }
  }

  lemma PartDestroy(s: State, u: TypeUrl, id: nat, t: TypeUrl)
    requires Inv(s) && u in s.apis
    ensures Part(DoDestroy(s, u, id), t) == if t == u then Leave(t, Part(s, t), id) else Part(s, t)
  {
    hide NamesOf, QueueDiscoveryRequest, DoDestroy, Emit;
    InvErase(s, u, id);
    PartEmit(EraseWatch(s, u, id), u, t);
  }

  lemma PartPush(s: State, u: TypeUrl, w: Watch, t: TypeUrl)
    requires Inv(s) && u in s.apis
    ensures var s' := Emit(PushWatch(s, u, w), u);
            Part(s', t) == if t == u then Enter(t, Part(s, t), w) else Part(s, t)
  {
    hide NamesOf, Emit;
    PartEmit(PushWatch(s, u, w), u, t);
  }

  lemma PartAddWatch(s: State, u: TypeUrl, w: Watch, t: TypeUrl)
    requires Inv(s) && !Watches(ApiOf(s, u).watches, w.id)
    ensures Part(DoAddWatch(s, u, w.id, w.resources), t) ==
            if t == u then Enter(t, Part(s, t).(known := true), w) else Part(s, t)
  {
    hide NamesOf, QueueDiscoveryRequest, Emit;
    InvJoin(s, u, w);
    var s1 := Subscribe(PushWatch(s, u, w), u);
    InvEmit(s1, u);
    PartEmit(s1, u, t);
  }

  lemma PartReceive(s: State, m: Response, t: TypeUrl)
    requires Inv(s)
    ensures Part(OnDiscoveryResponse(s, m), t) ==
            if t == m.typeUrl then Hear(t, Part(s, t), m) else Part(s, t)
  {
    hide OnDiscoveryResponse, Emit, Say;
    InvReceive(s, m);
    var u := m.typeUrl;
    if u in s.apis {
      PartNoted(s, m, t);
      assert ApiInv(s.apis[u], u) && s.apis[u].subscribed;
      hide Inv, Part, Noted;
      PartEmit(WithApi(s, u, Noted(s.apis[u], m)), u, t);
    }
  }

  /** Noting a response changes nonce and, of an unwatched type without resources, version. */
  lemma PartNoted(s: State, m: Response, t: TypeUrl)
    requires m.typeUrl in s.apis
    ensures var u, c := m.typeUrl, Part(s, t);
            var a := Noted(s.apis[u], m);
            && a.request.typeUrl == s.apis[u].request.typeUrl
            && (Answers(s.apis[u], m) <==> Part(s, u).watches != [] || m.resources != [])
            && Part(s, u).known
            && Part(WithApi(s, u, a), t) ==
               if t != u then c
               else c.(nonce := m.nonce, version := if Answers(s.apis[u], m) then c.version else m.versionInfo)
  {
    hide Lines;
  }

  lemma LinesDisregardNode(x: Sent, y: Sent, rest: seq<Sent>, t: TypeUrl)
    requires x.item == y.item && LineOf(x) == LineOf(y)
    ensures Lines([x] + rest, t) == Lines([y] + rest, t)
  {
    LinesConcat([x], rest, t);
    LinesConcat([y], rest, t);
    LinesOne([], x, t);
    LinesOne([], y, t);
    assert [] + [x] == [x] && [] + [y] == [y];
  }

  lemma LinesOfOpening(s: State, t: TypeUrl)
    requires Inv(s) && !s.shut
    ensures var o := Opened(s);
            Lines(Opening(s), t) ==
            Copies(LineOf(Sent(o.epoch, t, Reply(ApiOf(o, t)))), multiset(o.subs)[t])
  {
    var o := Opened(s);
    BookkeepingOpened(s);
    assert Bookkeeping(s) && o.subs == [CLUSTER] + o.subs[1..];
    hide Inv, Opened, Bookkeeping, Reply, ApiOf, Lines, Copies;
    RepliesOne(o, CLUSTER, o.subs[1..]);
    LinesOfReplies(o, o.subs, t);
    var y := Sent(o.epoch, CLUSTER, Reply(ApiOf(o, CLUSTER)));
    LinesDisregardNode(Opening(s)[0], y, Replies(o, o.subs[1..]), t);
  }

  /** What `t` says when a stream opens, and how often. */
  lemma OpeningLine(s: State, t: TypeUrl)
    requires Inv(s) && !s.shut
    ensures var o := Opened(s);
            && o.up && !o.shut && o.epoch == s.epoch + 1
            && (t in o.apis <==> t in s.apis || t == CLUSTER)
            && ApiOf(o, t).watches == ApiOf(s, t).watches
            && (t in o.apis ==>
                  LineOf(Sent(o.epoch, t, Reply(o.apis[t]))) ==
                  Line(o.epoch, t, ApiOf(s, t).request.versionInfo, "", NamesOf(ApiOf(s, t).watches)))
            && multiset(o.subs)[t] == (if t == CLUSTER then 2 else if t in s.apis then 1 else 0)
  {
    hide NamesOf;
    BookkeepingOpened(s);
    assert multiset(Opened(s).subs)[t] == Listings(Opened(s), t);
  }

  lemma PartEstablish(s: State, t: TypeUrl)
    requires Inv(s)
    ensures Part(Step(s, Establish(true)), t) == Open(t, Part(s, t))
  {
    hide NamesOf, OnStreamEstablished;
    if s.shut {
      EstablishAfterShutdown(s);
    } else {
      var o := Opened(s);
      EstablishmentTrace(s);
      OpeningLine(s, t);
      LinesOfOpening(s, t);
      LinesConcat(s.log, Opening(s), t);
      OpenPart(s, o, Step(s, Establish(true)), t);
    }
  }

  lemma OpenPart(s: State, o: State, s': State, t: TypeUrl)
    requires !s.shut && o.up && !o.shut && o.epoch == s.epoch + 1
    requires t in o.apis <==> t in s.apis || t == CLUSTER
    requires ApiOf(o, t).watches == ApiOf(s, t).watches
    requires ApiOf(o, t).request.versionInfo == ApiOf(s, t).request.versionInfo
    requires ApiOf(o, t).request.responseNonce == ""
    requires s' == o.(apis := s'.apis, log := s'.log) && s'.apis.Keys == o.apis.Keys
    requires t in o.apis ==> s'.apis[t] == Refreshed(o.apis[t]) || s'.apis[t] == o.apis[t]
    requires Lines(s'.log, t) == Lines(s.log, t) +
             Copies(Line(o.epoch, t, ApiOf(s, t).request.versionInfo, "", NamesOf(ApiOf(s, t).watches)),
                    if t == CLUSTER then 2 else if t in s.apis then 1 else 0)
    ensures Part(s', t) == Open(t, Part(s, t))
  {
    hide NamesOf;
    var x := Line(o.epoch, t, ApiOf(s, t).request.versionInfo, "", NamesOf(ApiOf(s, t).watches));
    assert Copies(x, 2) == [x] + [x] && Copies(x, 1) == [x] && Copies(x, 0) == [];
    assert Lines(s.log, t) + ([x] + [x]) == Lines(s.log, t) + [x] + [x];
  }

  // ---- The product theorem ----

  lemma PartStep(s: State, e: Event, t: TypeUrl)
    requires Inv(s) && Legal(s, e)
    ensures Part(Step(s, e), t) == if Concerns(e, t) then SingleStep(t, Part(s, t), e) else Part(s, t)
  {
    hide NamesOf, QueueDiscoveryRequest, DoDestroy, DoAddWatch, OnDiscoveryResponse, Emit;
    match e
    case Establish(ok) =>
      if ok { PartEstablish(s, t); }
    case AddWatch(u, id, rs) => PartAddWatch(s, u, Watch(id, rs), t);
    case Update(u, id, rs) =>
      InvErase(s, u, id);
      InvUpdate(s, u, id, rs);
      PartDestroy(s, u, id, t);
      PartPush(DoDestroy(s, u, id), u, Watch(id, rs), t);
    case Destroy(u, id) => PartDestroy(s, u, id, t);
    case Receive(m) => PartReceive(s, m, t);
    case Shutdown =>
  }

  /**
    For every run and every type, the multiplexer's part for that type, its writes
    included, is the single-type client run on that type's events alone.
   */
  lemma {:induction false} Product(h: seq<Event>, t: TypeUrl)
    requires LegalRun(h)
    ensures Part(Run(h), t) == SingleRun(t, EventsFor(h, t))
  {
    if h != [] {
      var front, e := h[..|h| - 1], h[|h| - 1];
      hide Step, SingleStep;
      Product(front, t);
      Reachable(front);
      PartStep(Run(front), e, t);
      var g := EventsFor(front, t);
      assert (g + [e])[..|g|] == g;
    }
  }

  /** What is kept of a run for `t`: the stream and shutdown events and those of `t`, each as often. */
  lemma {:induction false} EventsForMeaning(h: seq<Event>, t: TypeUrl, e: Event)
    ensures multiset(EventsFor(h, t))[e] ==
            match e
            case Establish(_) => multiset(h)[e]
            case Shutdown => multiset(h)[e]
            case Receive(m) => if m.typeUrl == t then multiset(h)[e] else 0
            case _ => if e.typeUrl == t then multiset(h)[e] else 0
  {
    if h != [] {
      var front, last := h[..|h| - 1], h[|h| - 1];
      assert h == front + [last];
      EventsForMeaning(front, t, e);
    }
  }

  lemma {:induction false} EventsForIdempotent(h: seq<Event>, t: TypeUrl)
    ensures EventsFor(EventsFor(h, t), t) == EventsFor(h, t)
  {
    if h != [] {
      var front, e := h[..|h| - 1], h[|h| - 1];
      EventsForIdempotent(front, t);
      var g := EventsFor(front, t);
      assert (g + [e])[..|g|] == g;
    }
  }

  lemma {:induction false} FilteredRunIsLegal(h: seq<Event>, t: TypeUrl)
    requires LegalRun(h)
    ensures LegalRun(EventsFor(h, t))
  {
    if h != [] {
      var front, e := h[..|h| - 1], h[|h| - 1];
      var g := EventsFor(front, t);
      FilteredRunIsLegal(front, t);
      EventsForIdempotent(front, t);
      Product(front, t);
      Product(g, t);
      assert Part(Run(front), t) == Part(Run(g), t);
      assert (g + [e])[..|g|] == g;
    }
  }

  /** Deleting every other type's events from a run changes nothing for `t`. */
  lemma OtherTypesAreInvisible(h: seq<Event>, t: TypeUrl)
    requires LegalRun(h)
    ensures LegalRun(EventsFor(h, t))
    ensures Lines(Run(EventsFor(h, t)).log, t) == Lines(Run(h).log, t)
    ensures Part(Run(EventsFor(h, t)), t) == Part(Run(h), t)
  {
    FilteredRunIsLegal(h, t);
    EventsForIdempotent(h, t);
    Product(h, t);
    Product(EventsFor(h, t), t);
  }
}
