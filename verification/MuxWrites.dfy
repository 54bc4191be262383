/**
  Nonces, versions and resource names on the wire, over whole runs.
 */
module MuxWrites {
  import opened ResourceNames
  import opened MuxModel
  import opened MuxInvariant
  import opened MuxProduct
  import opened MuxHistory

  // ---- What one step of a single-type client says ----

  /** `c'` has said what `c` had, and then only lines that tell its present version and nonce. */
  ghost predicate Speaks(t: TypeUrl, c: Single, c': Single) {
    && |c.log| <= |c'.log| && c'.log[..|c.log|] == c.log
    && (forall i | |c.log| <= i < |c'.log| ::
          var x := c'.log[i];
          x.stream == c'.epoch && x.typeUrl == t && x.version == c'.version && x.nonce == c'.nonce)
    && (|c'.log| > |c.log| ==> c'.log[|c'.log| - 1].names == NamesOf(c'.watches))
  }

  /** `c'` has said what `c` had and nothing more. */
  lemma SilenceSpeaks(t: TypeUrl, c: Single, c': Single)
    requires c'.log == c.log
    ensures Speaks(t, c, c')
  {
  }

  lemma SaySpeaks(t: TypeUrl, c: Single)
    ensures Speaks(t, c, Say(t, c))
  {
    hide NamesOf;
    assert Say(t, c).log[..|c.log|] == c.log;
  }

  /** What was said before a change of anything but the log still was. */
  lemma SpeaksFrom(t: TypeUrl, c: Single, c1: Single, c': Single)
    requires c1.log == c.log && Speaks(t, c1, c')
    ensures Speaks(t, c, c')
  {
  }

  /** Speaking goes on: of two in a row the latter has the last word. */
  lemma SpeaksOn(t: TypeUrl, c: Single, d: Single, c': Single)
    requires Speaks(t, c, d) && Speaks(t, d, c')
    requires d.epoch == c'.epoch && d.version == c'.version && d.nonce == c'.nonce
    requires |c'.log| > |d.log| || c'.log == c.log
    ensures Speaks(t, c, c')
  {
    hide NamesOf;
    assert forall i | 0 <= i < |d.log| :: c'.log[i] == c'.log[..|d.log|][i];
    assert c'.log[..|c.log|] == d.log[..|c.log|];
  }

  lemma OpenSpeaks(t: TypeUrl, c: Single)
    ensures Speaks(t, c, Open(t, c))
  {
    var c1 := c.(up := true, epoch := c.epoch + 1, nonce := "", known := c.known || t == CLUSTER);
    SaySpeaks(t, c1);
    SaySpeaks(t, Say(t, c1));
    SilenceSpeaks(t, c1, c1);
    hide Speaks;
    SpeaksOn(t, c1, Say(t, c1), Say(t, Say(t, c1)));
    hide Say;
    SpeaksFrom(t, c, c1, Open(t, c));
  }

  lemma LeaveSpeaks(t: TypeUrl, c: Single, id: nat)
    ensures Speaks(t, c, Leave(t, c, id))
  {
    hide Erase, ResourcesOf, Say, Speaks;
    var c1 := c.(watches := Erase(c.watches, id));
    SaySpeaks(t, c1);
    SilenceSpeaks(t, c1, c1);
    SpeaksFrom(t, c, c1, Leave(t, c, id));
  }

  lemma EnterSpeaks(t: TypeUrl, c: Single, w: Watch)
    ensures Speaks(t, c, Enter(t, c, w))
  {
    hide Say, Speaks;
    var c1 := c.(watches := [w] + c.watches);
    SaySpeaks(t, c1);
    SpeaksFrom(t, c, c1, Say(t, c1));
  }

  lemma ChangeSpeaks(t: TypeUrl, c: Single, id: nat, w: Watch)
    ensures Speaks(t, c, Enter(t, Leave(t, c, id), w))
  {
    hide NamesOf, Erase, ResourcesOf;
    LeaveSpeaks(t, c, id);
    EnterSpeaks(t, Leave(t, c, id), w);
    SpeaksOn(t, c, Leave(t, c, id), Enter(t, Leave(t, c, id), w));
  }

  lemma HearSpeaks(t: TypeUrl, c: Single, m: Response)
    ensures Speaks(t, c, Hear(t, c, m))
  {
    hide Say, Speaks;
    var c1 := c.(nonce := m.nonce);
    SaySpeaks(t, c1);
    SpeaksFrom(t, c, c1, Say(t, c1));
    SilenceSpeaks(t, c, c1.(version := m.versionInfo));
    SilenceSpeaks(t, c, c);
  }

  lemma SingleSpeaks(t: TypeUrl, c: Single, e: Event)
    ensures Speaks(t, c, SingleStep(t, c, e))
  {
    hide Speaks, Open, Enter, Leave, Hear;
    match e
    case Establish(ok) =>
      OpenSpeaks(t, c);
      SilenceSpeaks(t, c, c.(up := false));
    case AddWatch(_, id, rs) =>
      var c1 := c.(known := true);
      EnterSpeaks(t, c1, Watch(id, rs));
      SpeaksFrom(t, c, c1, SingleStep(t, c, e));
    case Update(_, id, rs) => ChangeSpeaks(t, c, id, Watch(id, rs));
    case Destroy(_, id) => LeaveSpeaks(t, c, id);
    case Receive(m) => HearSpeaks(t, c, m);
    case Shutdown => SilenceSpeaks(t, c, c.(shut := true));
  }

  /**
    The watchers behind the `i`-th line when event `e` takes `c` to `c'`: the present ones, except
    for the first of the two lines of an update, which is about the others only.
   */
  ghost function ListAt(c: Single, e: Event, c': Single, i: nat): seq<Watch> {
    if e.Update? && i == |c.log| && |c'.log| == |c.log| + 2 then Erase(c.watches, e.id) else c'.watches
  }

  ghost predicate SpeaksNames(c: Single, e: Event, c': Single) {
    forall i: nat | |c.log| <= i < |c'.log| :: c'.log[i].names == NamesOf(ListAt(c, e, c', i))
  }

  lemma SingleSpeaksNames(t: TypeUrl, c: Single, e: Event)
    ensures SpeaksNames(c, e, SingleStep(t, c, e))
  {
    hide NamesOf, Erase, ResourcesOf;
  }

  // ---- The state of a type, read off the history ----

  lemma KnownStep(h: seq<Event>, t: TypeUrl)
    requires h != []
    ensures var e := h[|h| - 1];
            Known(h, t) <==>
            Known(h[..|h| - 1], t) || (e.AddWatch? && e.typeUrl == t) || (e == Establish(true) && t == CLUSTER)
  {
    var front, e := h[..|h| - 1], h[|h| - 1];
    if Known(front, t) {
      var k :| 0 <= k < |front| &&
        ((front[k].AddWatch? && front[k].typeUrl == t) || (front[k] == Establish(true) && t == CLUSTER));
      assert h[k] == front[k];
    }
    if Known(h, t) {
      var k :| 0 <= k < |h| &&
        ((h[k].AddWatch? && h[k].typeUrl == t) || (h[k] == Establish(true) && t == CLUSTER));
      assert k < |front| ==> front[k] == h[k];
    }
  }

  lemma NoWatcherIffNoneLive(h: seq<Event>, t: TypeUrl)
    requires LegalRun(h)
    ensures Part(Run(h), t).watches == [] <==> Live(h, t) == {}
  {
    WatchListHistory(h, t);
    var ws := Part(Run(h), t).watches;
    hide LastTouch, Watched, Run, Part;
    if ws != [] {
      assert ws[0].id in Live(h, t);
    }
    if x :| x in Live(h, t) {
      assert Watches(ws, x);
    }
  }

  /** The state of the client for `t` is what the history says. */
  ghost predicate Tells(c: Single, h: seq<Event>, t: TypeUrl) {
    && c.epoch == Streams(h)
    && c.known == Known(h, t)
    && c.nonce == LastNonce(h, t)
    && c.version == LastVersion(h, t)
  }

  lemma TellsStep(c: Single, c': Single, h: seq<Event>, t: TypeUrl)
    requires h != [] && Tells(c, h[..|h| - 1], t)
    requires c.watches == [] <==> Live(h[..|h| - 1], t) == {}
    requires c' == if Concerns(h[|h| - 1], t) then SingleStep(t, c, h[|h| - 1]) else c
    ensures Tells(c', h, t)
  {
    KnownStep(h, t);
    if Concerns(h[|h| - 1], t) {
      SingleTells(t, c, h[|h| - 1]);
    }
    hide NamesOf, Live, Known, SingleStep;
  }

  /** How one event changes stream number, knownness, nonce and version. */
  lemma SingleTells(t: TypeUrl, c: Single, e: Event)
    requires Concerns(e, t)
    ensures var c' := SingleStep(t, c, e);
            && c'.epoch == c.epoch + (if e == Establish(true) then 1 else 0)
            && (c'.known <==> c.known || e.AddWatch? || (e == Establish(true) && t == CLUSTER))
            && c'.nonce == (if e == Establish(true) then "" else if e.Receive? && c.known then e.message.nonce else c.nonce)
            && c'.version == (if e.Receive? && c.known && c.watches == [] && e.message.resources == []
                              then e.message.versionInfo else c.version)
  {
    hide NamesOf, Erase, ResourcesOf;
  }

  lemma {:induction false} StateFromHistory(h: seq<Event>, t: TypeUrl)
    requires LegalRun(h)
    ensures Tells(Part(Run(h), t), h, t)
  {
    if h == [] {
      assert !Known(h, t);
    } else {
      var front, e := h[..|h| - 1], h[|h| - 1];
      hide NamesOf, Step, SingleStep, Part, Live, Known, Tells;
      StateFromHistory(front, t);
      Reachable(front);
      PartStep(Run(front), e, t);
      NoWatcherIffNoneLive(front, t);
      TellsStep(Part(Run(front), t), Part(Run(h), t), h, t);
    }
  }

  lemma SingleFlags(t: TypeUrl, c: Single, e: Event)
    ensures SingleStep(t, c, e).up == (if e.Establish? then e.ok else c.up)
    ensures SingleStep(t, c, e).shut == (c.shut || e.Shutdown?)
  {
    hide NamesOf, Erase, ResourcesOf;
  }

  lemma FlagsStep(h: seq<Event>)
    requires h != [] && LegalRun(h)
    ensures var s, e := Run(h[..|h| - 1]), h[|h| - 1];
            Run(h).up == (if e.Establish? then e.ok else s.up) && Run(h).shut == (s.shut || e.Shutdown?)
  {
    hide Step, SingleStep, Inv, Lines;
    var front, e := h[..|h| - 1], h[|h| - 1];
    Reachable(front);
    PartStep(Run(front), e, CLUSTER);
    SingleFlags(CLUSTER, Part(Run(front), CLUSTER), e);
  }

  /** A stream was opened and no attempt has failed since. */
  ghost predicate HasStream(h: seq<Event>) {
    exists k :: 0 <= k < |h| && h[k] == Establish(true) && forall j | k < j < |h| :: h[j] != Establish(false)
  }

  lemma HasStreamStep(h: seq<Event>)
    requires h != []
    ensures var front, e := h[..|h| - 1], h[|h| - 1];
            HasStream(h) == if e.Establish? then e.ok else HasStream(front)
  {
    var n := |h| - 1;
    var front := h[..n];
    if HasStream(front) && h[n] != Establish(false) {
      var k :| 0 <= k < n && front[k] == Establish(true) && forall j | k < j < n :: front[j] != Establish(false);
      assert h[k] == front[k] && forall j | k < j < n :: h[j] == front[j];
    }
    if HasStream(h) {
      var k :| 0 <= k < |h| && h[k] == Establish(true) && forall j | k < j < |h| :: h[j] != Establish(false);
      assert k < n ==> front[k] == h[k] && forall j | k < j < n :: front[j] == h[j];
    }
    if h[n] == Establish(true) {
      assert HasStream(h);
    }
  }

  /**
    A client has a stream if and only if one was opened and no attempt has failed since; it is
    shut down if and only if `shutdown` was called.
   */
  lemma {:induction false} FlagsFromHistory(h: seq<Event>)
    requires LegalRun(h)
    ensures Run(h).up <==> HasStream(h)
    ensures Run(h).shut <==> Shutdown in h
  {
    if h != [] {
      var front := h[..|h| - 1];
      assert h == front + [h[|h| - 1]];
      FlagsStep(h);
      FlagsFromHistory(front);
      HasStreamStep(h);
      hide HasStream, Step;
    }
  }

  // ---- Every write of every run ----

  /** Event `k` made the `i`-th write for `t`, and the write tells what the history up to `k` says. */
  ghost predicate WrittenAt(h: seq<Event>, t: TypeUrl, i: nat, k: nat)
    requires k < |h| && i < |Lines(Run(h).log, t)|
  {
    var x, past := Lines(Run(h).log, t)[i], h[..k + 1];
    && |Lines(Run(h[..k]).log, t)| <= i < |Lines(Run(past).log, t)|
    && x.typeUrl == t
    && x.stream == Streams(past)
    && x.nonce == LastNonce(past, t)
    && x.version == LastVersion(past, t)
    && x.names == NamesOf(ListAt(Part(Run(h[..k]), t), h[k], Part(Run(past), t), i))
    && NoDuplicates(x.names) && InSetOrder(x.names, SetsOf(ListAt(Part(Run(h[..k]), t), h[k], Part(Run(past), t), i)))
  }

  lemma WritesOfLastEvent(h: seq<Event>, t: TypeUrl)
    requires h != [] && LegalRun(h)
    ensures Speaks(t, Part(Run(h[..|h| - 1]), t), Part(Run(h), t))
    ensures SpeaksNames(Part(Run(h[..|h| - 1]), t), h[|h| - 1], Part(Run(h), t))
  {
    hide Step, SingleStep, Part, Speaks, Inv, ListAt;
    var front, e := h[..|h| - 1], h[|h| - 1];
    Reachable(front);
    PartStep(Run(front), e, t);
    SingleSpeaks(t, Part(Run(front), t), e);
    SingleSpeaksNames(t, Part(Run(front), t), e);
    SilenceSpeaks(t, Part(Run(front), t), Part(Run(front), t));
  }

  lemma LastEventTells(h: seq<Event>, t: TypeUrl, i: nat)
    requires h != [] && LegalRun(h)
    requires |Lines(Run(h[..|h| - 1]).log, t)| <= i < |Lines(Run(h).log, t)|
    ensures WrittenAt(h, t, i, |h| - 1)
  {
    hide Run, LegalRun, LastNonce, LastVersion, Streams, Lines, ListAt;
    WritesOfLastEvent(h, t);
    StateFromHistory(h, t);
    assert h[..|h| - 1 + 1] == h;
    NamesOfMeaning(ListAt(Part(Run(h[..|h| - 1]), t), h[|h| - 1], Part(Run(h), t), i));
    hide NamesOf, InSetOrder;
  }

  /**
    Every write for `t` in every run: its nonce is that of the last response for `t`
    handled on that stream (empty if none), its version that of the last response for
    `t` that found no watcher and brought no resource (empty if none), whatever stream
    it came on, and its names are those of the watch list at that moment.
   */
  lemma {:induction false} EveryWrite(h: seq<Event>, t: TypeUrl, i: nat)
    requires LegalRun(h) && i < |Lines(Run(h).log, t)|
    ensures exists k: nat :: k < |h| && WrittenAt(h, t, i, k)
  {
    if h != [] {
      var front := h[..|h| - 1];
      if i < |Lines(Run(front).log, t)| {
        EveryWrite(front, t, i);
        var k: nat :| k < |front| && WrittenAt(front, t, i, k);
        hide WrittenAt;
        StillWritten(h, t, i, k);
      } else {
        LastEventTells(h, t, i);
      }
    }
  }

  lemma StillWritten(h: seq<Event>, t: TypeUrl, i: nat, k: nat)
    requires h != [] && LegalRun(h) && k < |h| - 1
    requires i < |Lines(Run(h[..|h| - 1]).log, t)| && WrittenAt(h[..|h| - 1], t, i, k)
    ensures i < |Lines(Run(h).log, t)| && WrittenAt(h, t, i, k)
  {
    hide Run, LegalRun, Lines, LastNonce, LastVersion, Streams, ListAt;
    EarlierLine(h, t, i);
    SamePrefix(h, k);
    SamePrefix(h, k + 1);
  }

  lemma SamePrefix(h: seq<Event>, k: nat)
    requires h != [] && k < |h|
    ensures h[..|h| - 1][..k] == h[..k]
  {
  }

  lemma EarlierLine(h: seq<Event>, t: TypeUrl, i: nat)
    requires h != [] && LegalRun(h) && i < |Lines(Run(h[..|h| - 1]).log, t)|
    ensures i < |Lines(Run(h).log, t)| && Lines(Run(h).log, t)[i] == Lines(Run(h[..|h| - 1]).log, t)[i]
  {
    hide Run;
    WritesOfLastEvent(h, t);
    var a, b := Lines(Run(h[..|h| - 1]).log, t), Lines(Run(h).log, t);
    assert b[..|a|][i] == b[i];
  }

  /** Some response for `t` with nonce `n` was received on the current stream of `h`. */
  ghost predicate ReceivedOnStream(h: seq<Event>, t: TypeUrl, n: string, stream: nat) {
    exists j: nat :: j < |h| && Handled(h, j, t) && h[j].message.nonce == n && Streams(h[..j]) == stream
  }

  lemma {:induction false} NonceIsOfThisStream(h: seq<Event>, t: TypeUrl)
    ensures LastNonce(h, t) == "" || ReceivedOnStream(h, t, LastNonce(h, t), Streams(h))
  {
    if h != [] && h[|h| - 1] != Establish(true) {
      var front := h[..|h| - 1];
      if Handled(h, |h| - 1, t) {
        assert Streams(h[..|h| - 1]) == Streams(h);
      } else {
        NonceIsOfThisStream(front, t);
        if LastNonce(h, t) != "" {
          var j: nat :| j < |front| && Handled(front, j, t) && front[j].message.nonce == LastNonce(h, t)
            && Streams(front[..j]) == Streams(front);
          assert front[..j] == h[..j];
          assert Handled(h, j, t);
        }
      }
    }
  }

  /** No write ever carries the nonce of a response that came on an earlier stream only. */
  lemma NonceSafety(h: seq<Event>, t: TypeUrl, i: nat)
    requires LegalRun(h) && i < |Lines(Run(h).log, t)|
    ensures var x := Lines(Run(h).log, t)[i];
            x.nonce == "" || ReceivedOnStream(h, t, x.nonce, x.stream)
  {
    EveryWrite(h, t, i);
    var k: nat :| k < |h| && WrittenAt(h, t, i, k);
    var past := h[..k + 1];
    var x := Lines(Run(h).log, t)[i];
    hide Run, LastNonce, LastVersion, LegalRun, Lines, Streams, ReceivedOnStream;
    NonceIsOfThisStream(past, t);
    if x.nonce != "" {
      ReceivedBefore(h, k + 1, t, x.nonce, x.stream);
    }
  }

  lemma ReceivedBefore(h: seq<Event>, k: nat, t: TypeUrl, n: string, stream: nat)
    requires k <= |h| && ReceivedOnStream(h[..k], t, n, stream)
    ensures ReceivedOnStream(h, t, n, stream)
  {
    hide Streams, Known;
    var past := h[..k];
    var j: nat :| j < |past| && Handled(past, j, t) && past[j].message.nonce == n && Streams(past[..j]) == stream;
    assert past[..j] == h[..j];
    assert Handled(h, j, t);
  }
}
