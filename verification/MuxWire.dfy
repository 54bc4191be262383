/**
  The wire as a whole: which write comes first on a stream, which write carries the node,
  and in what order queued requests go out.
 */
module MuxWire {
  import opened ResourceNames
  import opened MuxModel
  import opened MuxInvariant
  import opened MuxHistory
  import opened MuxWrites

  /**
    Whether the first stream is opened before any watch on the Cluster type is added:
    only then is the node ever sent.
   */
  function JoinsByStream(h: seq<Event>): bool {
    h != [] &&
    (JoinsByStream(h[..|h| - 1]) || (h[|h| - 1] == Establish(true) && !Known(h[..|h| - 1], CLUSTER)))
  }

  lemma {:induction false} JoinsByStreamMeaning(h: seq<Event>)
    ensures JoinsByStream(h) <==> exists k: nat :: k < |h| && h[k] == Establish(true) && !Known(h[..k], CLUSTER)
  {
    hide Known;
    if h != [] {
      var n := |h| - 1;
      var front := h[..n];
      JoinsByStreamMeaning(front);
      assert forall k: nat | k < n :: front[..k] == h[..k] && front[k] == h[k];
      if k: nat :| k < n && front[k] == Establish(true) && !Known(front[..k], CLUSTER) {
        assert !Known(h[..k], CLUSTER) && h[k] == Establish(true);
      }
      if k: nat :| k < |h| && h[k] == Establish(true) && !Known(h[..k], CLUSTER) {
        assert k < n ==> !Known(front[..k], CLUSTER) && front[k] == Establish(true);
      }
    }
  }

  /** The `i`-th write of `log` is the first one on its stream. */
  predicate Opens(log: seq<Sent>, i: nat)
    requires i < |log|
  {
    forall j | 0 <= j < i :: log[j].stream != log[i].stream
  }

  ghost predicate WellFormedWrite(s: State, i: nat, joined: bool)
    requires i < |s.log|
  {
    && 1 <= s.log[i].stream <= s.epoch
    && (i == 0 ==> s.log[i].stream == 1)
    && s.log[i].request.typeUrl == s.log[i].item
    && s.log[i].item in s.subs
    && (Opens(s.log, i) ==> s.log[i].item == CLUSTER)
    && (s.log[i].request.node == if i == 0 && joined then Some(NODE) else None)
  }

  ghost predicate WellFormedWire(s: State, joined: bool) {
    && (forall i: nat | i < |s.log| :: WellFormedWrite(s, i, joined))
    && (forall i, j | 0 <= i < j < |s.log| :: s.log[i].stream <= s.log[j].stream)
    && (s.up && !s.shut ==> s.log != [] && s.log[|s.log| - 1].stream == s.epoch)
    && (s.epoch > 0 ==> s.log != [])
    && (joined ==> s.log != [])
  }

  lemma WireEmit(s: State, t: TypeUrl, joined: bool)
    requires WellFormedWire(s, joined)
    requires s.up && !s.shut ==> t in s.apis && s.apis[t].request.typeUrl == t && t in s.subs
    ensures WellFormedWire(Emit(s, t), joined)
  {
    hide NamesOf;
    var s' := Emit(s, t);
    forall i: nat | i < |s'.log|
      ensures WellFormedWrite(s', i, joined)
    {
      if i < |s.log| {
        assert WellFormedWrite(s, i, joined);
        WriteKeep(s, s', i, joined);
      } else {
        assert WellFormedWrite(s, |s.log| - 1, joined);
        assert s'.log[|s.log| - 1] == s.log[|s.log| - 1];
      }
    }
  }

  /** A write stays well-formed when more is written and more is subscribed. */
  lemma WriteKeep(s: State, s': State, i: nat, joined: bool)
    requires i < |s.log| && WellFormedWrite(s, i, joined)
    requires |s.log| <= |s'.log| && s'.log[..|s.log|] == s.log && s.epoch <= s'.epoch
    requires forall t | t in s.subs :: t in s'.subs
    ensures WellFormedWrite(s', i, joined)
  {
    assert forall j | 0 <= j <= i :: s'.log[..|s.log|][j] == s'.log[j] == s.log[j];
  }

  lemma SubscribedIsListed(s: State, t: TypeUrl)
    requires Inv(s) && t in s.apis
    ensures t in s.subs && s.apis[t].request.typeUrl == t
  {
    assert multiset(s.subs)[t] > 0;
  }

  /** A change of one type's state that leaves the wire alone. */
  lemma WireKeep(s: State, s': State, joined: bool)
    requires WellFormedWire(s, joined)
    requires s'.log == s.log && s.epoch <= s'.epoch && (s.epoch == 0 ==> s'.epoch == 0)
    requires s'.up && !s'.shut ==> s.up && !s.shut && s'.epoch == s.epoch
    requires forall t | t in s.subs :: t in s'.subs
    ensures WellFormedWire(s', joined)
  {
    forall i: nat | i < |s.log|
      ensures WellFormedWrite(s', i, joined)
    {
      WriteKeep(s, s', i, joined);
    }
  }

  /** `s'` is `s` with the writes `ws` of a new stream; `joins` says whether the node goes first. */
  ghost predicate OpensStream(s: State, s': State, ws: seq<Sent>, joins: bool) {
    && s'.epoch == s.epoch + 1 && s'.log == s.log + ws && |ws| > 0
    && (forall t | t in s.subs :: t in s'.subs)
    && ws[0].item == CLUSTER
    && (joins ==> s.log == []) && (s.log == [] ==> s'.epoch == 1)
    && (forall i | 0 <= i < |ws| ::
          && ws[i].stream == s'.epoch
          && ws[i].item in s'.subs && ws[i].item == ws[i].request.typeUrl
          && ws[i].request.node == if i == 0 && joins then Some(NODE) else None)
  }

  lemma NewStreamWrite(s: State, s': State, ws: seq<Sent>, joins: bool, joined: bool, i: nat)
    requires OpensStream(s, s', ws, joins) && (joined ==> s.log != [])
    requires |s.log| <= i < |s'.log|
    ensures WellFormedWrite(s', i, joined || joins)
  {
    var n := |s.log|;
    assert s'.log[i] == ws[i - n] && s'.log[n] == ws[0];
    if i == n {
      assert s'.log[i].item == CLUSTER;
    } else {
      assert s'.log[n].stream == s'.log[i].stream;
    }
  }

  lemma WireOpening(s: State, s': State, ws: seq<Sent>, joins: bool, joined: bool)
    requires WellFormedWire(s, joined) && OpensStream(s, s', ws, joins)
    ensures WellFormedWire(s', joined || joins)
  {
    var n := |s.log|;
    forall i: nat | i < |s'.log|
      ensures WellFormedWrite(s', i, joined || joins)
      ensures s'.log[i].stream <= s'.epoch
      ensures i >= n ==> s'.log[i].stream == s'.epoch
    {
      if i < n {
        assert WellFormedWrite(s, i, joined);
        WriteKeep(s, s', i, joined);
      } else {
        assert s'.log[i] == ws[i - n];
        NewStreamWrite(s, s', ws, joins, joined, i);
      }
    }
    hide WellFormedWrite;
    assert forall i | 0 <= i < n :: s'.log[i] == s.log[i];
  }

  lemma OpeningShape(s: State)
    requires Inv(s) && !s.shut
    ensures var o, ws := Opened(s), Opening(s);
            && o.epoch == s.epoch + 1 && o.up && !o.shut && |ws| > 0
            && ws[0].item == CLUSTER
            && (forall t | t in s.subs :: t in o.subs)
            && (s.epoch == 0 ==> s.log == [])
            && (forall i | 0 <= i < |ws| ::
                  && ws[i].stream == o.epoch
                  && ws[i].item == o.subs[i] == ws[i].request.typeUrl
                  && ws[i].request.node == if i == 0 && CLUSTER !in s.apis then Some(NODE) else None)
  {
    hide NamesOf;
    var o, ws := Opened(s), Opening(s);
    InvOpened(s);
    forall i | 0 <= i < |ws|
      ensures ws[i].item == o.subs[i] == ws[i].request.typeUrl
    {
      ListedIsKnown(s, o.subs[i]);
    }
  }

  lemma EstablishOpensStream(s: State)
    requires Inv(s) && !s.shut && (CLUSTER !in s.apis ==> s.log == []) && (s.log == [] ==> s.epoch == 0)
    ensures OpensStream(s, Step(s, Establish(true)), Opening(s), CLUSTER !in s.apis)
  {
    hide NamesOf, OnStreamEstablished;
    EstablishmentTrace(s);
    OpeningShape(s);
    hide Opened, Opening, Inv, Refreshed;
  }

  lemma WireEstablish(s: State, joined: bool)
    requires Inv(s) && WellFormedWire(s, joined)
    ensures WellFormedWire(Step(s, Establish(true)), joined || CLUSTER !in s.apis)
  {
    hide NamesOf, OnStreamEstablished, WellFormedWire, Inv, Opening, OpensStream;
    InvMeansListed(s);
    if s.shut {
      EstablishAfterShutdown(s);
      WireKeep(s, Opener(s), joined);
    } else {
      JoinedMeansKnown(s, joined);
      EstablishOpensStream(s);
      WireOpening(s, Step(s, Establish(true)), Opening(s), CLUSTER !in s.apis, joined);
    }
  }

  lemma InvMeansListed(s: State)
    requires Inv(s)
    ensures Bookkeeping(s) && (s.shut ==> CLUSTER in s.apis && s.epoch > 0)
  {
  }

  lemma JoinedMeansKnown(s: State, joined: bool)
    requires Inv(s) && WellFormedWire(s, joined)
    ensures CLUSTER !in s.apis ==> !joined && s.log == []
    ensures s.log == [] ==> s.epoch == 0
  {
  }

  lemma WireWatch(s: State, e: Event, joined: bool)
    requires Inv(s) && Legal(s, e) && WellFormedWire(s, joined)
    requires e.AddWatch? || e.Update? || e.Destroy?
    ensures WellFormedWire(Step(s, e), joined)
  {
    hide NamesOf, QueueDiscoveryRequest, WellFormedWire, DoDestroy, DoUpdate;
    var t := e.typeUrl;
    if e.AddWatch? {
      var s1 := Subscribe(PushWatch(s, t, Watch(e.id, e.resources)), t);
      InvJoin(s, t, Watch(e.id, e.resources));
      InvEmit(s1, t);
      WireKeep(s, s1, joined);
      SubscribedIsListed(s1, t);
      WireEmit(s1, t, joined);
    } else {
      InvErase(s, t, e.id);
      var s1 := EraseWatch(s, t, e.id);
      WireKeep(s, s1, joined);
      SubscribedIsListed(s, t);
      WireEmit(s1, t, joined);
      if e.Update? {
        InvUpdate(s, t, e.id, e.resources);
        var s2 := DoDestroy(s, t, e.id);
        SubscribedIsListed(s2, t);
        var s3 := PushWatch(s2, t, Watch(e.id, e.resources));
        WireKeep(s2, s3, joined);
        WireEmit(s3, t, joined);
      }
    }
  }

  lemma WireReceive(s: State, m: Response, joined: bool)
    requires Inv(s) && WellFormedWire(s, joined)
    ensures WellFormedWire(Step(s, Receive(m)), joined)
  {
    hide NamesOf, QueueDiscoveryRequest, WellFormedWire;
    InvReceive(s, m);
    var t := m.typeUrl;
    if t in s.apis {
      var s1 := WithApi(s, t, Noted(s.apis[t], m));
      WireKeep(s, s1, joined);
      SubscribedIsListed(s, t);
      WireEmit(s1, t, joined);
    }
  }

  lemma WireStep(s: State, e: Event, joined: bool)
    requires Inv(s) && Legal(s, e) && WellFormedWire(s, joined)
    ensures WellFormedWire(Step(s, e), joined || (e == Establish(true) && CLUSTER !in s.apis))
  {
    hide NamesOf, DoUpdate, DoAddWatch, DoDestroy, OnDiscoveryResponse, Inv, WellFormedWire;
    match e
    case Establish(ok) =>
      if ok { WireEstablish(s, joined); } else { WireKeep(s, s.(up := false), joined); }
    case Receive(m) => WireReceive(s, m, joined);
    case Shutdown => WireKeep(s, s.(shut := true), joined);
    case _ => WireWatch(s, e, joined);
  }

  /**
    Over every run: each write is for its own subscribed type, streams follow one another,
    the first write of every stream is for the Cluster type, and a write carries the node
    if and only if it is the very first of the run and the Cluster type was not watched
    before the first stream.
   */
  lemma {:induction false} Wire(h: seq<Event>)
    requires LegalRun(h)
    ensures WellFormedWire(Run(h), JoinsByStream(h))
  {
    if h != [] {
      var front, e := h[..|h| - 1], h[|h| - 1];
      hide NamesOf, Step, WellFormedWire, Known;
      Wire(front);
      Reachable(front);
      StateFromHistory(front, CLUSTER);
      WireStep(Run(front), e, JoinsByStream(front));
    }
  }

  /** No write on any stream but the first carries the node, although every stream needs one. */
  lemma NoNodeOnLaterStreams(h: seq<Event>, i: nat)
    requires LegalRun(h) && i < |Run(h).log| && Run(h).log[i].stream > 1
    ensures Run(h).log[i].request.node == None
  {
    Wire(h);
    hide Run, LegalRun;
    assert WellFormedWrite(Run(h), i, JoinsByStream(h));
  }

  /** Opening a second stream: its first write, unlike that of the first stream, comes without the node. */
  lemma SecondStreamLacksNode()
    ensures var h := [Establish(true), Establish(true)];
            var log := Run(h).log;
            && LegalRun(h) && |log| > 2
            && log[0].stream == 1 && log[0].request.node == Some(NODE)
            && log[2].stream == 2 && Opens(log, 2) && log[2].request.node == None
  {
    var g := [Establish(true)];
    var h := [Establish(true), Establish(true)];
    FirstStream();
    assert h == g + [Establish(true)];
    OneMoreEvent(g, Establish(true));
    hide Step, Run, LegalRun;
    EstablishmentWrites(Run(g));
    Wire(h);
    hide JoinsByStream, Inv;
    var log := Run(h).log;
    assert log[..2][0] == log[0] && log[..2][1] == log[1];
    assert WellFormedWrite(Run(h), 2, JoinsByStream(h));
  }

  lemma OneMoreEvent(h: seq<Event>, e: Event)
    requires LegalRun(h) && Legal(Run(h), e)
    ensures LegalRun(h + [e]) && Run(h + [e]) == Step(Run(h), e)
  {
    hide Step;
    assert (h + [e])[..|h|] == h;
  }

  /** The first stream of a client without watchers: the Cluster type twice, first with the node. */
  lemma FirstStream()
    ensures var g := [Establish(true)];
            && LegalRun(g) && Inv(Run(g)) && Run(g).up && !Run(g).shut && Run(g).epoch == 1
            && |Run(g).log| == 2 && (forall i | 0 <= i < 2 :: Run(g).log[i].stream == 1)
            && Run(g).log[0].request.node == Some(NODE)
  {
    var g := [Establish(true)];
    assert g[..0] == [];
    hide Step, Inv, NamesOf;
    assert LegalRun([]) && LegalRun(g) && Run(g) == Step(INIT, Establish(true));
    Reachable([]);
    Reachable(g);
    hide Run, LegalRun;
    EstablishmentTrace(INIT);
    OpeningShape(INIT);
    assert Run(g).log == Opening(INIT);
  }

  // ---- Bookkeeping, quiescence, shutdown ----

  /**
    In every reachable state, shut down or not, a type is subscribed if and only if the
    history makes it known; it is listed once for that and the Cluster type once more; the
    queue is empty; no type is paused or owed a node.
   */
  lemma SubscriptionBookkeeping(h: seq<Event>, t: TypeUrl)
    requires LegalRun(h)
    ensures ApiOf(Run(h), t).subscribed <==> Known(h, t)
    ensures multiset(Run(h).subs)[t] == (if t == CLUSTER then 1 else 0) + (if Known(h, t) then 1 else 0)
    ensures Run(h).subs != [] && Run(h).subs[0] == CLUSTER
    ensures Run(h).queue == [] && Quiet(ApiOf(Run(h), t))
  {
    Reachable(h);
    StateFromHistory(h, t);
    hide Known, Run, LegalRun;
    assert multiset(Run(h).subs)[t] == Listings(Run(h), t);
  }

  // ---- The order of the subscriptions ----

  /** The types that event `e` adds to the subscriptions of `s`. */
  function JoinedBy(s: State, e: Event): seq<TypeUrl> {
    if e.AddWatch? && !ApiOf(s, e.typeUrl).subscribed then [e.typeUrl]
    else if e == Establish(true) && !ApiOf(s, CLUSTER).subscribed then [CLUSTER]
    else []
  }

  lemma SubsStep(s: State, e: Event)
    requires Inv(s) && Legal(s, e)
    ensures Step(s, e).subs == s.subs + JoinedBy(s, e)
  {
    hide DoAddWatch, DoDestroy, DoUpdate, OnDiscoveryResponse, OnStreamEstablished;
    match e
    case Establish(ok) =>
      if ok { SubsOfOpening(s); } else { ClosedStream(s); }
    case AddWatch(t, id, rs) => SubsOfAdding(s, t, Watch(id, rs));
    case Update(t, id, rs) => SubsOfUpdating(s, t, Watch(id, rs));
    case Destroy(t, id) => SubsOfUpdating(s, t, Watch(id, {}));
    case Receive(m) => SubsOfReceiving(s, m);
    case Shutdown =>
  }

  lemma SubsOfEmit(s: State, t: TypeUrl)
    ensures Emit(s, t).subs == s.subs
  {
    hide NamesOf;
  }

  lemma SubsOfAdding(s: State, t: TypeUrl, w: Watch)
    requires Inv(s) && !Watches(ApiOf(s, t).watches, w.id)
    ensures DoAddWatch(s, t, w.id, w.resources).subs == if ApiOf(s, t).subscribed then s.subs else s.subs + [t]
  {
    var s1 := Subscribe(PushWatch(s, t, w), t);
    InvJoin(s, t, w);
    assert t in s1.apis && s1.subs == if ApiOf(s, t).subscribed then s.subs else s.subs + [t];
    hide Subscribe, PushWatch, QueueDiscoveryRequest, Emit, Inv;
    InvEmit(s1, t);
    SubsOfEmit(s1, t);
  }

  lemma SubsOfUpdating(s: State, t: TypeUrl, w: Watch)
    requires Inv(s) && t in s.apis
    ensures DoDestroy(s, t, w.id).subs == s.subs && DoUpdate(s, t, w.id, w.resources).subs == s.subs
  {
    hide DoDestroy, DoUpdate, Emit, Inv, Erase, ResourcesOf;
    InvErase(s, t, w.id);
    InvUpdate(s, t, w.id, w.resources);
    SubsOfEmit(EraseWatch(s, t, w.id), t);
    SubsOfEmit(PushWatch(DoDestroy(s, t, w.id), t, w), t);
  }

  lemma SubsOfReceiving(s: State, m: Response)
    requires Inv(s)
    ensures OnDiscoveryResponse(s, m).subs == s.subs
  {
    hide OnDiscoveryResponse, Emit, Inv, Noted;
    InvReceive(s, m);
    if m.typeUrl in s.apis {
      SubsOfEmit(WithApi(s, m.typeUrl, Noted(s.apis[m.typeUrl], m)), m.typeUrl);
    }
  }

  lemma SubsOfOpening(s: State)
    requires Inv(s)
    ensures Step(s, Establish(true)).subs == s.subs + JoinedBy(s, Establish(true))
  {
    hide Step;
    if s.shut {
      EstablishAfterShutdown(s);
      assert CLUSTER in s.apis && s.apis[CLUSTER].subscribed;
    } else {
      EstablishmentTrace(s);
      assert CLUSTER in s.apis ==> s.apis[CLUSTER].subscribed;
      hide Opening;
    }
  }

  /** The types in the order in which the history makes them known. */
  function Joined(h: seq<Event>): seq<TypeUrl> {
    if h == [] then
      []
    else
      var front, e := h[..|h| - 1], h[|h| - 1];
      Joined(front) +
      (if e.AddWatch? && !Known(front, e.typeUrl) then [e.typeUrl]
       else if e == Establish(true) && !Known(front, CLUSTER) then [CLUSTER]
       else [])
  }

  /** At some time `t` was known and `u` was not. */
  ghost predicate KnownBefore(h: seq<Event>, t: TypeUrl, u: TypeUrl) {
    exists k: nat :: k <= |h| && Known(h[..k], t) && !Known(h[..k], u)
  }

  /**
    What `Joined` lists: every known type once, and of two types the one that was known while
    the other was not comes first.
   */
  lemma {:induction false} JoinedMeaning(h: seq<Event>)
    ensures forall t :: t in Joined(h) <==> Known(h, t)
    ensures forall a, b | 0 <= a < b < |Joined(h)| :: KnownBefore(h, Joined(h)[a], Joined(h)[b])
  {
    if h == [] {
      assert forall t :: !Known(h, t);
    } else {
      var n := |h| - 1;
      var front, j, i := h[..n], Joined(h), Joined(h[..n]);
      JoinedMeaning(front);
      forall t
        ensures t in j <==> Known(h, t)
      {
        KnownStep(h, t);
      }
      hide Known, KnownBefore;
      forall a, b | 0 <= a < b < |j|
        ensures KnownBefore(h, j[a], j[b])
      {
        if b < |i| {
          KnownBeforeStill(h, i[a], i[b]);
        } else {
          assert i[a] in i && j[a] == i[a];
          KnownBeforeNow(h, n, j[a], j[b]);
        }
      }
    }
  }

  lemma KnownBeforeStill(h: seq<Event>, t: TypeUrl, u: TypeUrl)
    requires h != [] && KnownBefore(h[..|h| - 1], t, u)
    ensures KnownBefore(h, t, u)
  {
    hide Known;
    var front := h[..|h| - 1];
    var k: nat :| k <= |front| && Known(front[..k], t) && !Known(front[..k], u);
    assert front[..k] == h[..k];
  }

  lemma KnownBeforeNow(h: seq<Event>, n: nat, t: TypeUrl, u: TypeUrl)
    requires n <= |h| && Known(h[..n], t) && !Known(h[..n], u)
    ensures KnownBefore(h, t, u)
  {
    hide Known;
  }

  /**
    In every reachable state the subscription list is the Cluster type, then the types in the
    order in which the calls made them known.
   */
  lemma SubscriptionOrder(h: seq<Event>)
    requires LegalRun(h)
    ensures Run(h).subs == [CLUSTER] + Joined(h)
    ensures forall t :: t in Run(h).subs[1..] <==> Known(h, t)
    ensures forall a, b | 1 <= a < b < |Run(h).subs| :: KnownBefore(h, Run(h).subs[a], Run(h).subs[b])
  {
    SubsJoined(h);
    JoinedMeaning(h);
    hide Known, Run, LegalRun, Joined, KnownBefore;
    var subs, j := Run(h).subs, Joined(h);
    assert subs[1..] == j;
    forall a, b | 1 <= a < b < |subs|
      ensures KnownBefore(h, subs[a], subs[b])
    {
      assert subs[a] == j[a - 1] && subs[b] == j[b - 1];
    }
  }

  lemma {:induction false} SubsJoined(h: seq<Event>)
    requires LegalRun(h)
    ensures Run(h).subs == [CLUSTER] + Joined(h)
  {
    if h != [] {
      var front, e := h[..|h| - 1], h[|h| - 1];
      hide Step, Known, Inv, ApiOf;
      SubsJoined(front);
      Reachable(front);
      SubsStep(Run(front), e);
      SubscribedIffKnown(front, CLUSTER);
      if e.AddWatch? {
        SubscribedIffKnown(front, e.typeUrl);
      }
      hide Run, LegalRun;
      assert [CLUSTER] + (Joined(front) + JoinedBy(Run(front), e)) == ([CLUSTER] + Joined(front)) + JoinedBy(Run(front), e);
    }
  }

  lemma SubscribedIffKnown(h: seq<Event>, t: TypeUrl)
    requires LegalRun(h)
    ensures ApiOf(Run(h), t).subscribed <==> Known(h, t)
  {
    SubscriptionBookkeeping(h, t);
  }

  /** Opening a stream at the end of a run writes the Cluster type, then the known types in their order. */
  lemma OpeningOrder(h: seq<Event>)
    requires LegalRun(h) && !Run(h).shut
    ensures var h' := h + [Establish(true)];
            var before, after := Run(h).log, Run(h').log;
            && LegalRun(h') && |after| == |before| + 1 + |Joined(h')| && after[..|before|] == before
            && after[|before|].item == CLUSTER
            && forall i | 0 <= i < |Joined(h')| :: after[|before| + 1 + i].item == Joined(h')[i]
  {
    hide Known, Step, Joined;
    var h' := h + [Establish(true)];
    OneMoreEvent(h, Establish(true));
    Reachable(h);
    EstablishmentWrites(Run(h));
    SubsJoined(h');
    hide Run, LegalRun, Inv;
    var n, after := |Run(h).log|, Run(h').log;
    forall i | 0 <= i < |Joined(h')|
      ensures after[n + 1 + i].item == Joined(h')[i]
    {
      assert after[n + (i + 1)].item == Run(h').subs[i + 1];
    }
  }

  // ---- Data fetched before ----

  lemma FetchedStep(s: State, e: Event, t: TypeUrl)
    requires Inv(s) && Legal(s, e)
    ensures ApiOf(Step(s, e), t).previouslyFetchedData <==>
            || ApiOf(s, t).previouslyFetchedData
            || (e.Receive? && e.message.typeUrl == t && t in s.apis && s.apis[t].watches != [])
  {
    hide DoAddWatch, DoDestroy, DoUpdate, OnDiscoveryResponse, OnStreamEstablished;
    match e
    case Establish(ok) =>
      if ok { FetchedByOpening(s, t); } else { ClosedStream(s); }
    case AddWatch(u, id, rs) => AddKeepsFetched(s, u, Watch(id, rs), t);
    case Update(u, id, rs) => UpdateKeepsFetched(s, u, Watch(id, rs), t);
    case Destroy(u, id) => DestroyKeepsFetched(s, u, id, t);
    case Receive(m) => FetchedByReceiving(s, m, t);
    case Shutdown =>
  }

  lemma AddKeepsFetched(s: State, u: TypeUrl, w: Watch, t: TypeUrl)
    requires Inv(s) && !Watches(ApiOf(s, u).watches, w.id)
    ensures ApiOf(DoAddWatch(s, u, w.id, w.resources), t).previouslyFetchedData == ApiOf(s, t).previouslyFetchedData
  {
    var s1 := Subscribe(PushWatch(s, u, w), u);
    InvJoin(s, u, w);
    assert u in s1.apis && ApiOf(s1, t).previouslyFetchedData == ApiOf(s, t).previouslyFetchedData;
    hide Subscribe, PushWatch, QueueDiscoveryRequest, Emit, Inv;
    InvEmit(s1, u);
    EmitKeepsFetched(s1, u, t);
  }

  lemma UpdateKeepsFetched(s: State, u: TypeUrl, w: Watch, t: TypeUrl)
    requires Inv(s) && u in s.apis
    ensures ApiOf(DoUpdate(s, u, w.id, w.resources), t).previouslyFetchedData == ApiOf(s, t).previouslyFetchedData
  {
    hide DoDestroy, DoUpdate, Emit, Inv;
    InvErase(s, u, w.id);
    InvUpdate(s, u, w.id, w.resources);
    DestroyKeepsFetched(s, u, w.id, t);
    EmitKeepsFetched(PushWatch(DoDestroy(s, u, w.id), u, w), u, t);
  }

  lemma FetchedByReceiving(s: State, m: Response, t: TypeUrl)
    requires Inv(s)
    ensures ApiOf(OnDiscoveryResponse(s, m), t).previouslyFetchedData <==>
            ApiOf(s, t).previouslyFetchedData || (m.typeUrl == t && t in s.apis && s.apis[t].watches != [])
  {
    hide OnDiscoveryResponse, Emit, Inv;
    InvReceive(s, m);
    if m.typeUrl in s.apis {
      EmitKeepsFetched(WithApi(s, m.typeUrl, Noted(s.apis[m.typeUrl], m)), m.typeUrl, t);
    }
  }

  lemma EmitKeepsFetched(s: State, u: TypeUrl, t: TypeUrl)
    requires u in s.apis
    ensures ApiOf(Emit(s, u), t).previouslyFetchedData == ApiOf(s, t).previouslyFetchedData
  {
    hide NamesOf;
  }

  lemma DestroyKeepsFetched(s: State, u: TypeUrl, id: nat, t: TypeUrl)
    requires Inv(s) && u in s.apis
    ensures ApiOf(DoDestroy(s, u, id), t).previouslyFetchedData == ApiOf(s, t).previouslyFetchedData
  {
    hide Erase, ResourcesOf, DoDestroy, Emit;
    InvErase(s, u, id);
    EmitKeepsFetched(EraseWatch(s, u, id), u, t);
  }

  lemma FetchedByOpening(s: State, t: TypeUrl)
    requires Inv(s)
    ensures ApiOf(Step(s, Establish(true)), t).previouslyFetchedData == ApiOf(s, t).previouslyFetchedData
  {
    hide Step, NamesOf;
    if s.shut {
      EstablishAfterShutdown(s);
    } else {
      EstablishmentTrace(s);
      hide Opening;
    }
  }

  /** A response for `t` was handled by event `k` while `t` had a watcher. */
  predicate FetchedAt(h: seq<Event>, t: TypeUrl, k: nat) {
    k < |h| && Handled(h, k, t) && Live(h[..k], t) != {}
  }

  ghost predicate Fetched(h: seq<Event>, t: TypeUrl) {
    exists k: nat :: k < |h| && FetchedAt(h, t, k)
  }

  lemma FetchedLast(h: seq<Event>, t: TypeUrl)
    requires h != []
    ensures var front, e := h[..|h| - 1], h[|h| - 1];
            Fetched(h, t) <==>
            Fetched(front, t) || (e.Receive? && e.message.typeUrl == t && Known(front, t) && Live(front, t) != {})
  {
    hide Known, Live;
    var n := |h| - 1;
    forall k: nat | k < n
      ensures FetchedAt(h, t, k) <==> FetchedAt(h[..n], t, k)
    {
      SamePrefix(h, k);
    }
    assert FetchedAt(h, t, n) <==> h[n].Receive? && h[n].message.typeUrl == t && Known(h[..n], t) && Live(h[..n], t) != {};
    hide FetchedAt;
  }

  /** Data counts as fetched once a handled response has found a watcher, and for good. */
  lemma {:induction false} FetchedFromHistory(h: seq<Event>, t: TypeUrl)
    requires LegalRun(h)
    ensures ApiOf(Run(h), t).previouslyFetchedData <==> Fetched(h, t)
  {
    hide Step, Known, Live, Fetched, Inv;
    if h == [] {
      assert !Fetched(h, t) by { FetchedNever(t); }
    } else {
      var front := h[..|h| - 1];
      FetchedFromHistory(front, t);
      Reachable(front);
      FetchedStep(Run(front), h[|h| - 1], t);
      NoWatcherIffNoneLive(front, t);
      KnownIffThere(front, t);
      FetchedLast(h, t);
    }
  }

  lemma FetchedNever(t: TypeUrl)
    ensures !Fetched([], t)
  {
  }

  lemma KnownIffThere(h: seq<Event>, t: TypeUrl)
    requires LegalRun(h)
    ensures t in Run(h).apis <==> Known(h, t)
  {
    StateFromHistory(h, t);
  }

  lemma ShutStep(s: State, e: Event)
    requires Inv(s) && Legal(s, e) && s.shut
    ensures Step(s, e).shut && Step(s, e).log == s.log
  {
    hide NamesOf, QueueDiscoveryRequest, DoDestroy, DoUpdate, OnStreamEstablished;
    match e
    case Establish(ok) =>
      if ok { EstablishAfterShutdown(s); } else { assert Step(s, e) == s.(up := false) by { ClosedStream(s); } }
    case AddWatch(t, id, rs) =>
      InvJoin(s, t, Watch(id, rs));
      InvEmit(Subscribe(PushWatch(s, t, Watch(id, rs)), t), t);
    case Update(t, id, rs) =>
      InvErase(s, t, id);
      InvUpdate(s, t, id, rs);
    case Destroy(t, id) => InvErase(s, t, id);
    case Receive(m) => InvReceive(s, m);
    case Shutdown =>
  }

  lemma ClosedStream(s: State)
    ensures Step(s, Establish(false)) == s.(up := false)
  {
  }

  /** Nothing is written after `shutdown`, whatever is called. */
  lemma {:induction false} SilentAfterShutdown(h: seq<Event>, k: nat)
    requires LegalRun(h) && k < |h| && h[k] == Shutdown
    ensures Run(h).shut && Run(h).log == Run(h[..k]).log
  {
    var front, e := h[..|h| - 1], h[|h| - 1];
    hide Step;
    if k == |h| - 1 {
      ShutdownOnly(Run(front));
    } else {
      SilentAfterShutdown(front, k);
      assert front[..k] == h[..k];
      Reachable(front);
      ShutStep(Run(front), e);
    }
  }

  lemma ShutdownOnly(s: State)
    ensures Step(s, Shutdown) == s.(shut := true)
  {
  }

  // ---- Traces of single calls ----

  /** Draining writes the queued items, one write each, first in first out. */
  lemma {:induction false} DrainTrace(s: State)
    ensures var s' := DrainRequests(s);
            && s'.queue == []
            && (s.shut ==> s'.log == s.log)
            && (!s.shut ==>
                  && |s'.log| == |s.log| + |s.queue|
                  && s'.log[..|s.log|] == s.log
                  && forall i | 0 <= i < |s.queue| ::
                       s'.log[|s.log| + i].item == s.queue[i] && s'.log[|s.log| + i].stream == s.epoch)
    decreases |s.queue|
  {
    hide NamesOf;
    if s.queue != [] {
      var s1 := SendDiscoveryRequest(s, s.queue[0]);
      var s2 := s1.(queue := s1.queue[1..]);
      DrainTrace(s2);
      var s' := DrainRequests(s);
      if !s.shut {
        assert s'.log[..|s.log|] == s'.log[..|s.log| + 1][..|s.log|];
        forall i | 0 <= i < |s.queue|
          ensures s'.log[|s.log| + i].item == s.queue[i] && s'.log[|s.log| + i].stream == s.epoch
        {
          if i == 0 {
            assert s'.log[..|s.log| + 1][|s.log|] == s'.log[|s.log|];
          } else {
            assert s'.log[|s2.log| + (i - 1)].item == s2.queue[i - 1];
          }
        }
      }
    }
  }

  /**
    Establishing a stream writes the final subscription list, in order and in full, even when
    the list has grown under the loop.
   */
  lemma EstablishmentWrites(s: State)
    requires Inv(s) && !s.shut
    ensures var s' := Step(s, Establish(true));
            && |s'.log| == |s.log| + |s'.subs| && s'.log[..|s.log|] == s.log
            && s.subs <= s'.subs && s'.subs[0] == CLUSTER
            && forall i | 0 <= i < |s'.subs| ::
                 s'.log[|s.log| + i].item == s'.subs[i] && s'.log[|s.log| + i].stream == s'.epoch == s.epoch + 1
  {
    hide NamesOf, OnStreamEstablished;
    EstablishmentTrace(s);
    OpeningShape(s);
    assert s.subs <= Opened(s).subs;
    hide Opening, Inv;
  }

  /** Which set `ResourcesOf` finds. */
  lemma ResourcesOfMeaning(ws: seq<Watch>, w: Watch)
    requires DistinctIds(ws) && w in ws
    ensures ResourcesOf(ws, w.id) == w.resources
  {
  }

  /** Adding a watcher on a live stream: one write, naming its set before what the others watch. */
  lemma AddTrace(s: State, t: TypeUrl, w: Watch)
    requires Inv(s) && s.up && !s.shut && !Watches(ApiOf(s, t).watches, w.id)
    ensures var s', ws := Step(s, AddWatch(t, w.id, w.resources)), [w] + ApiOf(s, t).watches;
            var r := ApiOf(s, t).request;
            && s'.log == s.log + [Sent(s.epoch, t, Request(t, r.versionInfo, r.responseNonce, NamesOf(ws), None))]
            && ApiOf(s', t).watches == ws
  {
    hide NamesOf, QueueDiscoveryRequest;
    InvJoin(s, t, w);
    InvEmit(Subscribe(PushWatch(s, t, w), t), t);
  }

  /** Destroying a watcher on a live stream: one write naming what the others watch, if it watched anything. */
  lemma DestroyTrace(s: State, t: TypeUrl, w: Watch)
    requires Inv(s) && s.up && !s.shut && t in s.apis && w in s.apis[t].watches
    ensures var s', others := Step(s, Destroy(t, w.id)), Erase(s.apis[t].watches, w.id);
            && s'.log == s.log + (if w.resources == {} then []
                                  else [Sent(s.epoch, t, s.apis[t].request.(node := None, resourceNames := NamesOf(others)))])
            && ApiOf(s', t).watches == others
            && forall v :: v in others <==> v in s.apis[t].watches && v != w
  {
    hide NamesOf, QueueDiscoveryRequest, DoDestroy;
    InvErase(s, t, w.id);
    EraseMeaning(s.apis[t].watches, w.id);
    ResourcesOfMeaning(s.apis[t].watches, w);
    hide Erase, ResourcesOf;
  }

  /**
    Updating a watcher on a live stream: one write naming only what the others watch, if
    the watcher watched anything, then one naming the new set before what the others watch.
   */
  lemma UpdateTrace(s: State, t: TypeUrl, id: nat, rs: set<Name>)
    requires Inv(s) && s.up && !s.shut && t in s.apis && Watches(s.apis[t].watches, id)
    ensures var s' := Step(s, Update(t, id, rs));
            var others := Erase(s.apis[t].watches, id);
            var r := s.apis[t].request.(node := None);
            s'.log == s.log
              + (if ResourcesOf(s.apis[t].watches, id) == {} then []
                 else [Sent(s.epoch, t, r.(resourceNames := NamesOf(others)))])
              + [Sent(s.epoch, t, r.(resourceNames := NamesOf([Watch(id, rs)] + others)))]
    ensures forall w :: w in Erase(s.apis[t].watches, id) <==> w in s.apis[t].watches && w.id != id
    ensures var others := Erase(s.apis[t].watches, id);
            && InSetOrder(NamesOf(others), SetsOf(others))
            && InSetOrder(NamesOf([Watch(id, rs)] + others), [rs] + SetsOf(others))
  {
    hide NamesOf, DoDestroy, QueueDiscoveryRequest, InSetOrder;
    var others := Erase(s.apis[t].watches, id);
    NamesOfMeaning(others);
    NamesOfMeaning([Watch(id, rs)] + others);
    assert SetsOf([Watch(id, rs)] + others) == [rs] + SetsOf(others);
    InvErase(s, t, id);
    InvUpdate(s, t, id, rs);
    EraseMeaning(s.apis[t].watches, id);
  }
}
