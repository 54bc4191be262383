/**
  Reading a history of events: which types are known, which watchers live, which nonce and
  version were last taken, none of it by looking at the state of the multiplexer. The watch
  list of every type is what its history says.
 */
module MuxHistory {
  import opened ResourceNames
  import opened MuxModel
  import opened MuxInvariant
  import opened MuxProduct

  // ---- Reading a history ----

  /** The number of streams opened. */
  function Streams(h: seq<Event>): nat {
    if h == [] then 0
    else Streams(h[..|h| - 1]) + (if h[|h| - 1] == Establish(true) then 1 else 0)
  }

  /** Whether a watch on `t` was ever added, or `t` is the Cluster type and a stream was opened. */
  predicate Known(h: seq<Event>, t: TypeUrl) {
    exists k :: 0 <= k < |h| &&
      ((h[k].AddWatch? && h[k].typeUrl == t) || (h[k] == Establish(true) && t == CLUSTER))
  }

  /** The watchers of `t` created and not destroyed. */
  function Live(h: seq<Event>, t: TypeUrl): set<nat> {
    if h == [] then
      {}
    else
      var before := Live(h[..|h| - 1], t);
      match h[|h| - 1]
      case AddWatch(u, id, _) => if u == t then before + {id} else before
      case Destroy(u, id) => if u == t then before - {id} else before
      case _ => before
  }

  predicate Touches(e: Event, t: TypeUrl, id: nat) {
    (e.AddWatch? || e.Update?) && e.typeUrl == t && e.id == id
  }

  /** When watcher `id` of `t` was last created or updated; -1 if never. */
  function LastTouch(h: seq<Event>, t: TypeUrl, id: nat): (k: int)
    ensures -1 <= k < |h|
    ensures k >= 0 ==> Touches(h[k], t, id)
    ensures forall j | k < j < |h| :: !Touches(h[j], t, id)
  {
    if h == [] then -1
    else if Touches(h[|h| - 1], t, id) then |h| - 1
    else LastTouch(h[..|h| - 1], t, id)
  }

  /** What watcher `id` of `t` watches: the set it was last given. */
  function Watched(h: seq<Event>, t: TypeUrl, id: nat): set<Name> {
    var k := LastTouch(h, t, id);
    if k < 0 then {} else h[k].resources
  }

  /** A response for `t` that the client does not ignore. */
  predicate Handled(h: seq<Event>, k: nat, t: TypeUrl)
    requires k < |h|
  {
    h[k].Receive? && h[k].message.typeUrl == t && Known(h[..k], t)
  }

  /** The nonce of the last handled response since the current stream was opened. */
  function LastNonce(h: seq<Event>, t: TypeUrl): string {
    if h == [] || h[|h| - 1] == Establish(true) then ""
    else if Handled(h, |h| - 1, t) then h[|h| - 1].message.nonce
    else LastNonce(h[..|h| - 1], t)
  }

  /** A handled response that found no watcher and brought no resource: its version is taken. */
  predicate Accepted(h: seq<Event>, k: nat, t: TypeUrl)
    requires k < |h|
  {
    Handled(h, k, t) && Live(h[..k], t) == {} && h[k].message.resources == []
  }

  /** The version of the last accepted response. */
  function LastVersion(h: seq<Event>, t: TypeUrl): string {
    if h == [] then ""
    else if Accepted(h, |h| - 1, t) then h[|h| - 1].message.versionInfo
    else LastVersion(h[..|h| - 1], t)
  }

  // ---- What these readings mean ----

  lemma HandledInFront(h: seq<Event>, k: nat, t: TypeUrl)
    requires k < |h| - 1
    ensures Handled(h[..|h| - 1], k, t) == Handled(h, k, t) && Accepted(h[..|h| - 1], k, t) == Accepted(h, k, t)
  {
    assert h[..|h| - 1][..k] == h[..k];
  }

  /** When a stream was opened. */
  function Openings(h: seq<Event>): set<int> {
    set k | 0 <= k < |h| && h[k] == Establish(true)
  }

  lemma {:induction false} StreamsMeaning(h: seq<Event>)
    ensures Streams(h) == |Openings(h)|
  {
    if h == [] {
      assert Openings(h) == {};
    } else {
      var n := |h| - 1;
      StreamsMeaning(h[..n]);
      assert Openings(h) == if h[n] == Establish(true) then Openings(h[..n]) + {n} else Openings(h[..n]);
    }
  }

  /** Watcher `id` of `t` was created by event `k` and not destroyed since. */
  predicate LivesSince(h: seq<Event>, t: TypeUrl, id: nat, k: nat) {
    k < |h| && h[k].AddWatch? && h[k].typeUrl == t && h[k].id == id && forall j | k < j < |h| :: h[j] != Destroy(t, id)
  }

  lemma LivesStep(h: seq<Event>, t: TypeUrl, id: nat, k: nat)
    requires h != [] && k < |h| - 1
    ensures LivesSince(h, t, id, k) <==> LivesSince(h[..|h| - 1], t, id, k) && h[|h| - 1] != Destroy(t, id)
  {
    var front := h[..|h| - 1];
    assert front[k] == h[k];
    assert forall j | k < j < |front| :: front[j] == h[j];
  }

  /** A watcher lives if and only if it was created and not destroyed since. */
  lemma {:induction false} LiveMeaning(h: seq<Event>, t: TypeUrl, id: nat)
    ensures id in Live(h, t) <==> exists k: nat :: k < |h| && LivesSince(h, t, id, k)
  {
    if h != [] {
      var n := |h| - 1;
      LiveMeaning(h[..n], t, id);
      forall k: nat | k < n
        ensures LivesSince(h, t, id, k) <==> LivesSince(h[..n], t, id, k) && h[n] != Destroy(t, id)
      {
        LivesStep(h, t, id, k);
      }
      assert LivesSince(h, t, id, n) <==> h[n].AddWatch? && h[n].typeUrl == t && h[n].id == id;
      hide LivesSince;
    }
  }

  /** With a response handled on the current stream, the nonce is that of the last such response. */
  lemma {:induction false} LastNonceMeaning(h: seq<Event>, t: TypeUrl, k: nat)
    requires k < |h| && Handled(h, k, t) && forall j: nat | k < j < |h| :: !Handled(h, j, t) && h[j] != Establish(true)
    ensures LastNonce(h, t) == h[k].message.nonce
  {
    hide Known;
    if k < |h| - 1 {
      var front := h[..|h| - 1];
      forall j: nat | k <= j < |front|
        ensures Handled(front, j, t) == Handled(h, j, t) && front[j] == h[j]
      {
        HandledInFront(h, j, t);
      }
      hide Handled;
      LastNonceMeaning(front, t, k);
    }
  }

  /** Before any response is handled on the current stream, the nonce is empty. */
  lemma {:induction false} NoNonceYet(h: seq<Event>, t: TypeUrl)
    requires forall k: nat | k < |h| && Handled(h, k, t) :: exists j :: k < j < |h| && h[j] == Establish(true)
    ensures LastNonce(h, t) == ""
  {
    if h != [] && h[|h| - 1] != Establish(true) {
      var front := h[..|h| - 1];
      forall k: nat | k < |front| && Handled(front, k, t)
        ensures exists j :: k < j < |front| && front[j] == Establish(true)
      {
        HandledInFront(h, k, t);
        var j :| k < j < |h| && h[j] == Establish(true);
        assert front[j] == h[j];
      }
      hide Handled;
      NoNonceYet(front, t);
    }
  }

  /** The version is that of the last accepted response. */
  lemma {:induction false} LastVersionMeaning(h: seq<Event>, t: TypeUrl, k: nat)
    requires k < |h| && Accepted(h, k, t) && forall j: nat | k < j < |h| :: !Accepted(h, j, t)
    ensures LastVersion(h, t) == h[k].message.versionInfo
  {
    if k < |h| - 1 {
      var front := h[..|h| - 1];
      forall j: nat | k <= j < |front|
        ensures Accepted(front, j, t) == Accepted(h, j, t) && front[j] == h[j]
      {
        HandledInFront(h, j, t);
      }
      hide Accepted;
      LastVersionMeaning(front, t, k);
    }
  }

  lemma {:induction false} NoneAccepted(h: seq<Event>, t: TypeUrl)
    requires forall k: nat | k < |h| :: !Accepted(h, k, t)
    ensures LastVersion(h, t) == ""
  {
    if h != [] {
      var front := h[..|h| - 1];
      forall k: nat | k < |front|
        ensures !Accepted(front, k, t)
      {
        HandledInFront(h, k, t);
      }
      hide Accepted;
      NoneAccepted(front, t);
    }
  }

  // ---- The watch list ----

  /** `ws` lists the watchers `ids` of `t`, most recently created or updated first. */
  ghost predicate Lists(ws: seq<Watch>, ids: set<nat>, h: seq<Event>, t: TypeUrl) {
    && (forall i | 0 <= i < |ws| :: ws[i].id in ids && ws[i].resources == Watched(h, t, ws[i].id))
    && (forall id | id in ids :: Watches(ws, id))
    && (forall i, j | 0 <= i < j < |ws| :: LastTouch(h, t, ws[i].id) > LastTouch(h, t, ws[j].id))
  }

  lemma TouchSteps(h: seq<Event>, t: TypeUrl, id: nat)
    requires h != []
    ensures var front, e := h[..|h| - 1], h[|h| - 1];
            && (Touches(e, t, id) ==> LastTouch(h, t, id) == |h| - 1 && Watched(h, t, id) == e.resources)
            && (!Touches(e, t, id) ==> LastTouch(h, t, id) == LastTouch(front, t, id) && Watched(h, t, id) == Watched(front, t, id))
            && LastTouch(front, t, id) < |h| - 1
  {
  }

  lemma ListsRemoveAt(ws: seq<Watch>, ids: set<nat>, h: seq<Event>, t: TypeUrl, i: nat, r: seq<Watch>)
    requires Lists(ws, ids, h, t) && DistinctIds(ws)
    requires i < |ws| && r == ws[..i] + ws[i + 1..]
    ensures Lists(r, ids - {ws[i].id}, h, t)
  {
    hide LastTouch, Watched;
    assert forall j | 0 <= j < |r| :: r[j] == ws[if j < i then j else j + 1];
    forall x | x in ids - {ws[i].id}
      ensures Watches(r, x)
    {
      assert Watches(ws, x);
      WatchesOther(ws, i, r, x);
    }
    hide Watches;
  }

  lemma WatchesOther(ws: seq<Watch>, i: nat, r: seq<Watch>, x: nat)
    requires i < |ws| && r == ws[..i] + ws[i + 1..] && Watches(ws, x) && ws[i].id != x
    ensures Watches(r, x)
  {
    var j :| 0 <= j < |ws| && ws[j].id == x;
    assert r[if j < i then j else j - 1] == ws[j];
  }

  lemma ListsErase(ws: seq<Watch>, ids: set<nat>, h: seq<Event>, t: TypeUrl, id: nat)
    requires Lists(ws, ids, h, t) && DistinctIds(ws)
    ensures Lists(Erase(ws, id), ids - {id}, h, t)
  {
    hide Lists;
    var i := IndexOf(ws, id);
    if i < |ws| {
      ListsRemoveAt(ws, ids, h, t, i, Erase(ws, id));
    } else {
      ListedIffLive(ws, ids, h, t, id);
      assert ids - {id} == ids;
    }
  }

  lemma ListsPush(ws: seq<Watch>, ids: set<nat>, h: seq<Event>, t: TypeUrl, w: Watch)
    requires h != [] && Touches(h[|h| - 1], t, w.id) && h[|h| - 1].resources == w.resources
    requires Lists(ws, ids, h[..|h| - 1], t) && w.id !in ids
    ensures Lists([w] + ws, ids + {w.id}, h, t)
  {
    hide LastTouch, Watched;
    var ws' := [w] + ws;
    TouchSteps(h, t, w.id);
    forall i | 0 <= i < |ws|
      ensures LastTouch(h, t, ws[i].id) == LastTouch(h[..|h| - 1], t, ws[i].id) < |h| - 1
      ensures Watched(h, t, ws[i].id) == Watched(h[..|h| - 1], t, ws[i].id)
    {
      TouchSteps(h, t, ws[i].id);
    }
    forall x | x in ids + {w.id}
      ensures Watches(ws', x)
    {
      if x == w.id {
        assert ws'[0].id == x;
      } else {
        assert Watches(ws, x);
        var i :| 0 <= i < |ws| && ws[i].id == x;
        assert ws'[i + 1].id == x;
      }
    }
  }

  lemma ListsKeep(ws: seq<Watch>, ids: set<nat>, h: seq<Event>, t: TypeUrl)
    requires h != [] && Lists(ws, ids, h[..|h| - 1], t)
    requires forall id | id in ids :: !Touches(h[|h| - 1], t, id)
    ensures Lists(ws, ids, h, t)
  {
    hide LastTouch, Watched;
    forall i | 0 <= i < |ws|
      ensures LastTouch(h, t, ws[i].id) == LastTouch(h[..|h| - 1], t, ws[i].id)
      ensures Watched(h, t, ws[i].id) == Watched(h[..|h| - 1], t, ws[i].id)
    {
      TouchSteps(h, t, ws[i].id);
    }
  }

  lemma ListedIffLive(ws: seq<Watch>, ids: set<nat>, h: seq<Event>, t: TypeUrl, id: nat)
    requires Lists(ws, ids, h, t)
    ensures Watches(ws, id) <==> id in ids
  {
  }

  /**
    The watch list of every type in every reachable state: the watchers created and not
    destroyed, once each, with the sets they were last given, in order of last use.
   */
  lemma {:induction false} WatchListHistory(h: seq<Event>, t: TypeUrl)
    requires LegalRun(h)
    ensures Lists(Part(Run(h), t).watches, Live(h, t), h, t)
  {
    if h == [] {
      assert Part(Run(h), t).watches == [];
    } else {
      var front, e := h[..|h| - 1], h[|h| - 1];
      hide NamesOf, Step, LastTouch, Watched, Lists;
      var s := Run(front);
      var ws, ids := Part(s, t).watches, Live(front, t);
      WatchListHistory(front, t);
      Reachable(front);
      PartWatches(s, e, t);
      WatchListStep(h, t, ws, Part(Run(h), t).watches);
    }
  }

  /** How one event changes the watch list of `t`. */
  ghost function ListAfter(ws: seq<Watch>, e: Event, t: TypeUrl): seq<Watch> {
    match e
    case AddWatch(u, id, rs) => if u == t then [Watch(id, rs)] + ws else ws
    case Update(u, id, rs) => if u == t then [Watch(id, rs)] + Erase(ws, id) else ws
    case Destroy(u, id) => if u == t then Erase(ws, id) else ws
    case _ => ws
  }

  lemma PartWatches(s: State, e: Event, t: TypeUrl)
    requires Inv(s) && Legal(s, e)
    ensures Part(Step(s, e), t).watches == ListAfter(Part(s, t).watches, e, t)
  {
    PartStep(s, e, t);
    hide Step, Inv, Part;
    if Concerns(e, t) {
      SingleWatches(t, Part(s, t), e);
    }
  }

  lemma SingleWatches(t: TypeUrl, c: Single, e: Event)
    requires Concerns(e, t)
    ensures SingleStep(t, c, e).watches == ListAfter(c.watches, e, t)
  {
    hide NamesOf, Erase, ResourcesOf;
  }

  lemma WatchListStep(h: seq<Event>, t: TypeUrl, ws: seq<Watch>, ws': seq<Watch>)
    requires h != [] && DistinctIds(ws) && Lists(ws, Live(h[..|h| - 1], t), h[..|h| - 1], t)
    requires ws' == ListAfter(ws, h[|h| - 1], t)
    requires match h[|h| - 1]
             case AddWatch(u, id, _) => u == t ==> !Watches(ws, id)
             case Update(u, id, _) => u == t ==> Watches(ws, id)
             case _ => true
    ensures Lists(ws', Live(h, t), h, t)
  {
    hide LastTouch, Watched, Lists;
    var front, ids := h[..|h| - 1], Live(h[..|h| - 1], t);
    match h[|h| - 1]
    case AddWatch(u, id, rs) =>
      if u == t {
        ListedIffLive(ws, ids, front, t, id);
        ListsPush(ws, ids, h, t, Watch(id, rs));
      } else {
        ListsKeep(ws, ids, h, t);
      }
    case Update(u, id, rs) =>
      if u == t {
        ListedIffLive(ws, ids, front, t, id);
        ListsErase(ws, ids, front, t, id);
        ListsPush(Erase(ws, id), ids - {id}, h, t, Watch(id, rs));
        assert ids - {id} + {id} == ids;
      } else {
        ListsKeep(ws, ids, h, t);
      }
    case Destroy(u, id) =>
      if u == t {
        ListsErase(ws, ids, front, t, id);
        ListsKeep(Erase(ws, id), ids - {id}, h, t);
      } else {
        ListsKeep(ws, ids, h, t);
      }
    case _ =>
      ListsKeep(ws, ids, h, t);
  }
}
