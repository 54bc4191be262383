/**
  What the run theorems say about an actual client object, whatever public calls made it
  what it is.
 */
module ClientGuarantees {
  import opened ResourceNames
  import opened MuxModel
  import opened MuxInvariant
  import opened MuxProduct
  import opened MuxHistory
  import opened MuxWrites
  import opened MuxConvergence
  import opened MuxWire
  import opened AdsClientObjects

  /** Some live watcher of `t` watches `x`. */
  ghost predicate WatchedBySome(c: AdsClient, t: TypeUrl, x: Name)
    reads c, c.watchers
  {
    exists w :: w in c.watchers && w.typeUrl == t && x in w.resources
  }

  /** On a live stream the last request for a subscribed type names what its live watchers watch. */
  lemma Converges(c: AdsClient, t: TypeUrl)
    requires c.Valid() && c.Reached() && c.stream && !c.isShutdown && t in c.subscriptions
    ensures var lines := Lines(c.written, t);
            && lines != []
            && lines[|lines| - 1].stream == c.streams
            && NoDuplicates(lines[|lines| - 1].names)
            && InTouchOrder(lines[|lines| - 1].names, Live(c.history, t), c.history, t)
            && forall x :: x in lines[|lines| - 1].names <==> WatchedBySome(c, t, x)
  {
    hide AdsClient.Linked, AdsClient.WatchesShown, AdsClient.FieldsShown, NamesOf, Run, LegalRun, InTouchOrder;
    Convergence(c.history, t);
    forall x
      ensures Wanted(c.history, t, x) <==> WatchedBySome(c, t, x)
    {
      WantedByWatchers(c, t, x);
    }
  }

  /** The watchers of the object are the live watchers of its history. */
  lemma WantedByWatchers(c: AdsClient, t: TypeUrl, x: Name)
    requires c.Valid() && c.Reached()
    ensures Wanted(c.history, t, x) <==> WatchedBySome(c, t, x)
  {
    var h := c.history;
    WatchListHistory(h, t);
    var ws := Part(Run(h), t).watches;
    hide Run, LegalRun, LastTouch, Watched, Live;
    if Wanted(h, t, x) {
      var id :| id in Live(h, t) && x in Watched(h, t, id);
      assert Watches(ws, id);
      var i :| 0 <= i < |ws| && ws[i].id == id;
      assert t in c.model.apis;
      c.Shown(t);
      var w := c.apiState[t].watches.entries[i].watcher;
      assert w in c.watchers && w.typeUrl == t && x in w.resources;
    }
    if w :| w in c.watchers && w.typeUrl == t && x in w.resources {
      c.LinkOf(w);
      c.Shown(t);
      var es := c.apiState[t].watches.entries;
      var i :| 0 <= i < |es| && es[i] == w.iter;
      assert ws[i] == Watch(w.id, w.resources);
      assert ws[i].id in Live(h, t);
    }
  }

  /**
    A live watcher has exactly one entry in the list of its type, its iterator denotes that
    entry, and the list is the one that the client holds for the type.
   */
  lemma ListedOnce(c: AdsClient, w: Watcher)
    requires c.Valid() && w in c.watchers
    ensures w.typeUrl in c.apiState && w.watches == c.apiState[w.typeUrl].watches
    ensures w.iter in w.watches.entries && w.iter.watcher == w
    ensures forall i, j | 0 <= i < |w.watches.entries| && 0 <= j < |w.watches.entries| ::
              w.watches.entries[i].watcher == w && w.watches.entries[j].watcher == w ==> i == j
  {
    c.LinkOf(w);
    c.Shown(w.typeUrl);
  }

  /** Every request a client has written answers on its own stream or answers nothing. */
  lemma NoncesAreSafe(c: AdsClient, t: TypeUrl, i: nat)
    requires c.Valid() && c.Reached() && i < |Lines(c.written, t)|
    ensures var x := Lines(c.written, t)[i];
            x.nonce == "" || ReceivedOnStream(c.history, t, x.nonce, x.stream)
  {
    NonceSafety(c.history, t, i);
  }

  /** The first request on every stream is for the Cluster type, and only the very first can carry the node. */
  lemma WireIsWellFormed(c: AdsClient, i: nat)
    requires c.Valid() && c.Reached() && i < |c.written|
    ensures c.written[i].request.typeUrl == c.written[i].item && c.written[i].item in c.subscriptions
    ensures Opens(c.written, i) ==> c.written[i].item == CLUSTER
    ensures c.written[i].request.node == if i == 0 && JoinsByStream(c.history) then Some(NODE) else None
  {
    Wire(c.history);
    assert WellFormedWrite(c.model, i, JoinsByStream(c.history));
  }

  /**
    The subscription list of a client: the Cluster type, then every known type once, in the order
    in which the calls made them known.
   */
  lemma SubscribedInOrder(c: AdsClient)
    requires c.Valid() && c.Reached()
    ensures |c.subscriptions| > 0 && c.subscriptions[0] == CLUSTER
    ensures forall t :: t in c.subscriptions[1..] <==> Known(c.history, t)
    ensures forall a, b | 1 <= a < b < |c.subscriptions| :: KnownBefore(c.history, c.subscriptions[a], c.subscriptions[b])
  {
    hide AdsClient.Linked, AdsClient.WatchesShown, AdsClient.FieldsShown, Run, LegalRun, Known, KnownBefore;
    SubscriptionOrder(c.history);
  }

  // ---- The guarantees in use ----

  /** A client that a program has built and connected. */
  method Connect() returns (c: AdsClient)
    ensures fresh(c) && fresh(c.states) && fresh(c.lists) && c.Valid() && c.Reached()
    ensures c.stream && !c.isShutdown && CLUSTER in c.subscriptions && c.watchers == {}
    ensures c.history == [Establish(true)]
    ensures Lines(c.written, CLUSTER) != [] && Lines(c.written, CLUSTER)[|Lines(c.written, CLUSTER)| - 1].names == []
  {
    hide AdsClient.Valid, AdsClient.Reached, Lines, Step, Run, LegalRun;
    c := new AdsClient();
    c.OnStreamEstablished(true);
    assert c.history == [Establish(true)];
    Connected(c);
  }

  lemma Connected(c: AdsClient)
    requires c.Valid() && c.Reached() && c.history == [Establish(true)] && c.watchers == {}
    ensures c.stream && !c.isShutdown && CLUSTER in c.subscriptions
    ensures Lines(c.written, CLUSTER) != [] && Lines(c.written, CLUSTER)[|Lines(c.written, CLUSTER)| - 1].names == []
  {
    hide AdsClient.Linked, AdsClient.WatchesShown, AdsClient.FieldsShown, Lines, Run, LegalRun, Known;
    FirstStream();
    Subscribed([Establish(true)], CLUSTER);
    Converges(c, CLUSTER);
    NoNames(c, CLUSTER, Lines(c.written, CLUSTER)[|Lines(c.written, CLUSTER)| - 1].names);
  }

  lemma NoNames(c: AdsClient, t: TypeUrl, names: seq<Name>)
    requires c.watchers == {} && forall x :: x in names <==> WatchedBySome(c, t, x)
    ensures names == []
  {
    EmptyOrNot(names);
  }

  lemma Subscribed(h: seq<Event>, t: TypeUrl)
    requires LegalRun(h) && (t == CLUSTER || Known(h, t))
    ensures t in Run(h).subs
  {
    hide Run, LegalRun, Known;
    SubscriptionBookkeeping(h, t);
  }

  lemma EmptyOrNot(names: seq<Name>)
    ensures names == [] || exists x :: x in names
  {
    if names != [] {
      assert names[0] in names;
    }
  }

  /** Watching and receiving leave the stream as it is. */
  lemma StreamStays(h: seq<Event>)
    requires h != [] && LegalRun(h) && !h[|h| - 1].Establish? && !h[|h| - 1].Shutdown?
    ensures Run(h).up == Run(h[..|h| - 1]).up && Run(h).shut == Run(h[..|h| - 1]).shut
  {
    var front, e := h[..|h| - 1], h[|h| - 1];
    Reachable(front);
    PartStep(Run(front), e, CLUSTER);
    hide Step, SingleStep, Inv;
    SingleStreamStays(CLUSTER, Part(Run(front), CLUSTER), e);
  }

  lemma SingleStreamStays(t: TypeUrl, c: Single, e: Event)
    requires !e.Establish? && !e.Shutdown?
    ensures SingleStep(t, c, e).up == c.up && SingleStep(t, c, e).shut == c.shut
  {
    hide NamesOf, Erase, ResourcesOf;
  }

  /** With one watcher, what is watched is what it watches. */
  lemma OnlyWatcher(c: AdsClient, w: Watcher, x: Name)
    requires c.watchers == {w}
    ensures WatchedBySome(c, w.typeUrl, x) <==> x in w.resources
  {
    if x in w.resources {
      assert w in c.watchers && w.typeUrl == w.typeUrl && x in w.resources;
    }
  }

  /** With one watcher on a live stream, the server was last asked for what it watches. */
  lemma AskedFor(c: AdsClient, w: Watcher)
    requires c.Valid() && c.Reached() && c.watchers == {w} && Known(c.history, w.typeUrl)
    requires Run(c.history).up && !Run(c.history).shut
    ensures c.stream
    ensures var lines := Lines(c.written, w.typeUrl);
            lines != [] && forall x :: x in lines[|lines| - 1].names <==> x in w.resources
  {
    hide AdsClient.Linked, AdsClient.WatchesShown, AdsClient.FieldsShown, Lines, Run, LegalRun, Known, WatchedBySome;
    Subscribed(c.history, w.typeUrl);
    Converges(c, w.typeUrl);
    forall x
      ensures WatchedBySome(c, w.typeUrl, x) <==> x in w.resources
    {
      OnlyWatcher(c, w, x);
    }
  }

  /** A watch has been added and updated on the first stream. */
  lemma WatchedOnStream(h: seq<Event>, t: TypeUrl)
    requires LegalRun(h) && |h| == 3 && h[0] == Establish(true) && h[1].AddWatch? && h[1].typeUrl == t && h[2].Update?
    ensures Run(h).up && !Run(h).shut && Known(h, t)
  {
    hide Step;
    assert LegalRun(h[..2]) && h[..2][..1] == [Establish(true)];
    hide Run, LegalRun;
    FirstStream();
    StreamStays(h[..2]);
    StreamStays(h);
    assert h[1].AddWatch?;
  }

  /**
    A whole session through the objects: connect, watch `before`, change to `after`. Whatever
    the sets and the type, the server was last asked for exactly `after`.
   */
  method Session(t: TypeUrl, before: set<Name>, after: set<Name>) returns (c: AdsClient, w: Watcher)
    ensures fresh(c) && c.Valid() && c.Reached() && c.stream && c.watchers == {w} && w.typeUrl == t && w.resources == after
    ensures var lines := Lines(c.written, t);
            lines != [] && forall x :: x in lines[|lines| - 1].names <==> x in after
  {
    hide AdsClient.Valid, Lines, Step, Run, LegalRun, Known;
    c := Connect();
    w := c.AddWatch(t, before);
    c.LinkOf(w);
    w.Update(after);
    WatchedOnStream(c.history, t);
    AskedFor(c, w);
  }
}
