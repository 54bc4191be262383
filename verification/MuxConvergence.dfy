/**
  Convergence: on a live stream, the last thing the server was told about a type is what
  the live watchers of that type want.
 */
module MuxConvergence {
  import opened ResourceNames
  import opened MuxModel
  import opened MuxInvariant
  import opened MuxProduct
  import opened MuxHistory
  import opened MuxWrites
  import opened MuxWire

  ghost predicate Converged(c: Single) {
    c.up && !c.shut && c.known ==>
      && c.log != []
      && c.log[|c.log| - 1].stream == c.epoch
      && c.log[|c.log| - 1].names == NamesOf(c.watches)
  }

  lemma SetsAround(ws: seq<Watch>, i: nat)
    requires i < |ws|
    ensures var a, b := SetsOf(ws[..i]), SetsOf(ws[i + 1..]);
            && SetsOf(ws) == a + [ws[i].resources] + b
            && SetsOf(ws[..i] + ws[i + 1..]) == a + b
  {
  }

  /** Destroying a watcher of nothing is silent, and rightly so. */
  lemma SilentLeave(ws: seq<Watch>, id: nat)
    requires ResourcesOf(ws, id) == {}
    ensures NamesOf(Erase(ws, id)) == NamesOf(ws)
  {
    hide Names;
    var i := IndexOf(ws, id);
    hide IndexOf;
    if i < |ws| {
      SetsAround(ws, i);
      hide SetsOf;
      EmptySetIsSilent(SetsOf(ws[..i]), SetsOf(ws[i + 1..]));
    }
  }

  lemma ConvergedStep(t: TypeUrl, c: Single, e: Event)
    requires Converged(c)
    requires e.Update? || e.Destroy? ==> c.known
    ensures Converged(SingleStep(t, c, e))
  {
    hide NamesOf, Erase;
    if e.Destroy? && ResourcesOf(c.watches, e.id) == {} {
      SilentLeave(c.watches, e.id);
    }
  }

  lemma {:induction false} AlwaysConverged(h: seq<Event>, t: TypeUrl)
    requires LegalRun(h)
    ensures Converged(Part(Run(h), t))
  {
    if h != [] {
      var front, e := h[..|h| - 1], h[|h| - 1];
      hide NamesOf, Step, SingleStep, Converged;
      AlwaysConverged(front, t);
      Reachable(front);
      PartStep(Run(front), e, t);
      if Concerns(e, t) {
        ConvergedStep(t, Part(Run(front), t), e);
      }
    }
  }

  /** One of the watchers `ids` of `t` watches `x`. */
  ghost predicate WantedBy(ids: set<nat>, h: seq<Event>, t: TypeUrl, x: Name) {
    exists id :: id in ids && x in Watched(h, t, id)
  }

  /** Some live watcher of `t` watches `x`. */
  ghost predicate Wanted(h: seq<Event>, t: TypeUrl, x: Name) {
    WantedBy(Live(h, t), h, t, x)
  }

  lemma NamesAreWanted(ids: set<nat>, h: seq<Event>, t: TypeUrl, ws: seq<Watch>, x: Name)
    requires Lists(ws, ids, h, t)
    ensures x in NamesOf(ws) <==> WantedBy(ids, h, t, x)
  {
    NamesMeaning(SetsOf(ws));
    hide Names, LastTouch, Watched;
    assert x in NamesOf(ws) <==> InSome(SetsOf(ws), x);
    if i :| 0 <= i < |ws| && x in SetsOf(ws)[i] {
      assert ws[i].id in ids;
    }
    if WantedBy(ids, h, t, x) {
      var id :| id in ids && x in Watched(h, t, id);
      assert Watches(ws, id);
      var i :| 0 <= i < |ws| && ws[i].id == id;
      assert x in SetsOf(ws)[i];
    }
  }

  /**
    Of the watchers `ids` of `t`, the one touched last of those that watch `x` or `y` watches
    `x`, and if it watches `y` too, `x` stands before `y` in the dictionary.
   */
  ghost predicate SoonerWanted(ids: set<nat>, h: seq<Event>, t: TypeUrl, x: Name, y: Name) {
    exists id :: id in ids && x in Watched(h, t, id)
      && (forall other | other in ids && LastTouch(h, t, other) > LastTouch(h, t, id) ::
            x !in Watched(h, t, other) && y !in Watched(h, t, other))
      && (y in Watched(h, t, id) ==> LexLess(x, y))
  }

  /** Names in the order in which their watchers were last touched, most recent first. */
  ghost predicate InTouchOrder(names: seq<Name>, ids: set<nat>, h: seq<Event>, t: TypeUrl) {
    forall a, b | 0 <= a < b < |names| :: SoonerWanted(ids, h, t, names[a], names[b])
  }

  lemma SoonerByList(ids: set<nat>, h: seq<Event>, t: TypeUrl, ws: seq<Watch>, x: Name, y: Name)
    requires Lists(ws, ids, h, t) && Precedes(SetsOf(ws), x, y)
    ensures SoonerWanted(ids, h, t, x, y)
  {
    hide LastTouch, Watched, LexLess;
    var sets := SetsOf(ws);
    var i :| 0 <= i < |sets| && x in sets[i]
      && (forall j | 0 <= j < i :: x !in sets[j] && y !in sets[j])
      && (y in sets[i] ==> LexLess(x, y));
    var id := ws[i].id;
    forall other | other in ids && LastTouch(h, t, other) > LastTouch(h, t, id)
      ensures x !in Watched(h, t, other) && y !in Watched(h, t, other)
    {
      assert Watches(ws, other);
      var j :| 0 <= j < |ws| && ws[j].id == other;
      assert j < i;
      assert sets[j] == Watched(h, t, other);
    }
    assert id in ids && x in Watched(h, t, id);
  }

  lemma NamesOfList(ids: set<nat>, h: seq<Event>, t: TypeUrl, ws: seq<Watch>)
    requires Lists(ws, ids, h, t)
    ensures NoDuplicates(NamesOf(ws)) && InTouchOrder(NamesOf(ws), ids, h, t)
    ensures forall x :: x in NamesOf(ws) <==> WantedBy(ids, h, t, x)
  {
    hide Lists, WantedBy, Precedes, SoonerWanted;
    NamesMeaning(SetsOf(ws));
    var names := NamesOf(ws);
    forall a, b | 0 <= a < b < |names|
      ensures SoonerWanted(ids, h, t, names[a], names[b])
    {
      SoonerByList(ids, h, t, ws, names[a], names[b]);
    }
    forall x
      ensures x in NamesOf(ws) <==> WantedBy(ids, h, t, x)
    {
      NamesAreWanted(ids, h, t, ws, x);
    }
  }

  /**
    In every reachable state with a stream up and no shutdown, every subscribed type has
    been written on this stream, and its last write names exactly the resources that its
    live watchers watch, each once, those of the watcher touched last first.
   */
  lemma Convergence(h: seq<Event>, t: TypeUrl)
    requires LegalRun(h)
    requires Run(h).up && !Run(h).shut && t in Run(h).subs
    ensures var lines := Lines(Run(h).log, t);
            && lines != []
            && lines[|lines| - 1].stream == Run(h).epoch
            && lines[|lines| - 1].names == NamesOf(Part(Run(h), t).watches)
            && NoDuplicates(lines[|lines| - 1].names)
            && InTouchOrder(lines[|lines| - 1].names, Live(h, t), h, t)
            && forall x :: x in lines[|lines| - 1].names <==> Wanted(h, t, x)
  {
    Reachable(h);
    assert multiset(Run(h).subs)[t] > 0;
    AlwaysConverged(h, t);
    WatchListHistory(h, t);
    hide Run, LegalRun, Lists, NamesOf, WantedBy, InTouchOrder;
    NamesOfList(Live(h, t), h, t, Part(Run(h), t).watches);
  }

  /** The `i`-th write for `t`, made by event `k`, is the first of the two writes of an update. */
  predicate Midway(e: Event, i: nat, before: nat, after: nat) {
    e.Update? && i == before && after == before + 2
  }

  /**
    Every write for `t` in every run, not only the last: it is made by some event, and names,
    once each, exactly the resources that the live watchers of `t` watch after that event; the
    first of two writes of an update names what the other watchers watch.
   */
  lemma EveryWriteNames(h: seq<Event>, t: TypeUrl, i: nat)
    requires LegalRun(h) && i < |Lines(Run(h).log, t)|
    ensures exists k: nat :: k < |h| && WrittenAt(h, t, i, k) && NamesWritten(h, t, i, k)
  {
    EveryWrite(h, t, i);
    var k: nat :| k < |h| && WrittenAt(h, t, i, k);
    WrittenNames(h, t, i, k);
  }

  /** What the `i`-th write for `t`, made by event `k`, names, read off the history. */
  ghost predicate NamesWritten(h: seq<Event>, t: TypeUrl, i: nat, k: nat)
    requires k < |h| && i < |Lines(Run(h).log, t)|
  {
    var names, before, past := Lines(Run(h).log, t)[i].names, h[..k], h[..k + 1];
    && NoDuplicates(names)
    && if Midway(h[k], i, |Lines(Run(before).log, t)|, |Lines(Run(past).log, t)|) then
         var others := Live(before, t) - {h[k].id};
         InTouchOrder(names, others, before, t) && forall x :: x in names <==> WantedBy(others, before, t, x)
       else
         InTouchOrder(names, Live(past, t), past, t) && forall x :: x in names <==> Wanted(past, t, x)
  }

  lemma WrittenNames(h: seq<Event>, t: TypeUrl, i: nat, k: nat)
    requires LegalRun(h) && k < |h| && i < |Lines(Run(h).log, t)| && WrittenAt(h, t, i, k)
    ensures NamesWritten(h, t, i, k)
  {
    hide Run, LegalRun, Lists, NamesOf, WantedBy, InTouchOrder, InSetOrder, Lines, LastNonce, LastVersion, Streams, Live,
      NoDuplicates, Erase;
    var before, past := h[..k], h[..k + 1];
    var c, c' := Part(Run(before), t), Part(Run(past), t);
    WatchListsAround(h, k, t);
    NamesOfList(Live(past, t), past, t, c'.watches);
    if h[k].Update? {
      ListsErase(c.watches, Live(before, t), before, t, h[k].id);
      NamesOfList(Live(before, t) - {h[k].id}, before, t, Erase(c.watches, h[k].id));
    }
  }

  /** The watch list of `t` before and after event `k`. */
  lemma WatchListsAround(h: seq<Event>, k: nat, t: TypeUrl)
    requires LegalRun(h) && k < |h|
    ensures Lists(Part(Run(h[..k]), t).watches, Live(h[..k], t), h[..k], t) && DistinctIds(Part(Run(h[..k]), t).watches)
    ensures Lists(Part(Run(h[..k + 1]), t).watches, Live(h[..k + 1], t), h[..k + 1], t)
  {
    PrefixIsLegal(h, k);
    PrefixIsLegal(h, k + 1);
    hide Run, LegalRun, Lists, Live;
    Reachable(h[..k]);
    WatchListHistory(h[..k], t);
    WatchListHistory(h[..k + 1], t);
  }

  lemma {:induction false} PrefixIsLegal(h: seq<Event>, k: nat)
    requires LegalRun(h) && k <= |h|
    ensures LegalRun(h[..k])
  {
    if k == |h| {
      assert h[..k] == h;
    } else {
      PrefixIsLegal(h[..|h| - 1], k);
      assert h[..|h| - 1][..k] == h[..k];
    }
  }

  // ---- ACK and NACK ----

  /** The response to a known type, on a live stream, that gets an answer. */
  predicate Provokes(s: State, m: Response) {
    Streaming(s) && Provoking(s, m)
  }

  /**
    A response is answered by one write if its type is known and it finds a watcher or brings a
    resource, on a live stream, and else by none. The answer carries the new nonce with the
    version held before: by the xDS protocol, a NACK. A response that finds no watcher and brings
    no resource is taken instead.
   */
  lemma AnswerTrace(s: State, m: Response)
    requires Inv(s)
    ensures var s' := Step(s, Receive(m));
            if s.up && !s.shut && m.typeUrl in s.apis && (s.apis[m.typeUrl].watches != [] || m.resources != []) then
              && |s'.log| == |s.log| + 1 && s'.log[..|s.log|] == s.log
              && s'.log[|s.log|].stream == s.epoch
              && s'.log[|s.log|].item == m.typeUrl == s'.log[|s.log|].request.typeUrl
              && s'.log[|s.log|].request.responseNonce == m.nonce
              && s'.log[|s.log|].request.versionInfo == s.apis[m.typeUrl].request.versionInfo
              && s'.log[|s.log|].request.node == None
            else
              s'.log == s.log
    ensures var s' := Step(s, Receive(m));
            m.typeUrl in s.apis ==>
              && ApiOf(s', m.typeUrl).watches == s.apis[m.typeUrl].watches
              && ApiOf(s', m.typeUrl).request.responseNonce == m.nonce
              && ApiOf(s', m.typeUrl).request.versionInfo ==
                 if s.apis[m.typeUrl].watches == [] && m.resources == [] then m.versionInfo
                 else s.apis[m.typeUrl].request.versionInfo
    ensures Provokes(s, m) <==>
            s.up && !s.shut && m.typeUrl in s.apis && (s.apis[m.typeUrl].watches != [] || m.resources != [])
  {
    hide NamesOf, QueueDiscoveryRequest;
    InvReceive(s, m);
  }

  /** The answer to a response carries its nonce, and the version that the history before it gives. */
  lemma AnswerCarriesLastVersion(h: seq<Event>, m: Response)
    requires LegalRun(h) && Provokes(Run(h), m)
    ensures LegalRun(h + [Receive(m)])
    ensures var log := Run(h + [Receive(m)]).log;
            && log != [] && log[|log| - 1].item == m.typeUrl
            && log[|log| - 1].request.responseNonce == m.nonce
            && log[|log| - 1].request.versionInfo == LastVersion(h, m.typeUrl)
  {
    hide NamesOf, Step, LastVersion;
    var h' := h + [Receive(m)];
    assert h'[..|h'| - 1] == h;
    Reachable(h);
    StateFromHistory(h, m.typeUrl);
    AnswerTrace(Run(h), m);
  }

  /**
    The protocol text promises that an accepted response is answered with its own version.
    Over every run, the client does so exactly when the last response for the type that found
    no watcher and brought no resource had that version, or there was none and it is empty.
   */
  lemma AnswerIsAckIff(h: seq<Event>, m: Response)
    requires LegalRun(h) && Provokes(Run(h), m)
    ensures LegalRun(h + [Receive(m)])
    ensures var log := Run(h + [Receive(m)]).log;
            && log != [] && log[|log| - 1].item == m.typeUrl
            && (log[|log| - 1].request.versionInfo == m.versionInfo <==> LastVersion(h, m.typeUrl) == m.versionInfo)
  {
    hide Run, LegalRun, LastVersion;
    AnswerCarriesLastVersion(h, m);
  }

  /**
    While no response for the type has found it unwatched and come empty, in particular on
    every run in which the type is watched throughout, no answer acknowledges a version.
   */
  lemma NeverAcknowledged(h: seq<Event>, m: Response)
    requires LegalRun(h) && Provokes(Run(h), m) && m.versionInfo != ""
    requires forall k: nat | k < |h| :: !Accepted(h, k, m.typeUrl)
    ensures var log := Run(h + [Receive(m)]).log;
            && log != [] && log[|log| - 1].item == m.typeUrl
            && log[|log| - 1].request.versionInfo == "" != m.versionInfo
  {
    NoneAccepted(h, m.typeUrl);
    hide Run, LegalRun, Accepted, LastVersion;
    AnswerCarriesLastVersion(h, m);
  }

  /** A watched response that is never acknowledged: the first write it provokes repeats version "". */
  lemma WatchedResponseIsRejected()
    ensures var m := Response(CLUSTER, "1", "n1", []);
            var h := [Establish(true), AddWatch(CLUSTER, 0, {"a"}), Receive(m)];
            && LegalRun(h)
            && Run(h).log != []
            && Run(h).log[|Run(h).log| - 1].request.responseNonce == "n1"
            && Run(h).log[|Run(h).log| - 1].request.versionInfo == ""
  {
    var m := Response(CLUSTER, "1", "n1", []);
    var g := [Establish(true), AddWatch(CLUSTER, 0, {"a"})];
    assert g + [Receive(m)] == [Establish(true), AddWatch(CLUSTER, 0, {"a"}), Receive(m)];
    WatchedAfterOpening();
    NoneAccepted(g, CLUSTER);
    hide Run, LegalRun, LastVersion;
    AnswerCarriesLastVersion(g, m);
  }

  lemma InvIsQuiet(s: State, t: TypeUrl)
    requires Inv(s)
    ensures ApiOf(s, t).pauses == 0
  {
  }

  /** A stream, then a watcher. */
  lemma WatchedAfterOpening()
    ensures var g := [Establish(true), AddWatch(CLUSTER, 0, {"a"})];
            LegalRun(g) && Run(g).up && !Run(g).shut && CLUSTER in Run(g).apis && Run(g).apis[CLUSTER].watches != []
    ensures Run([Establish(true), AddWatch(CLUSTER, 0, {"a"})]).apis[CLUSTER].pauses == 0
  {
    var f := [Establish(true)];
    var e := AddWatch(CLUSTER, 0, {"a"});
    var g := [Establish(true), e];
    assert g[..1] == f && f[..0] == [];
    FirstStream();
    NoWatcherIffNoneLive(f, CLUSTER);
    assert Live(f, CLUSTER) == {};
    hide Step, Inv, NamesOf;
    assert LegalRun(g) && Run(g) == Step(Run(f), e);
    Reachable(g);
    InvIsQuiet(Run(g), CLUSTER);
    hide Run, LegalRun;
    PartStep(Run(f), e, CLUSTER);
  }
}
