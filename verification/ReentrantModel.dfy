/**
  What the calls of a client come to when its stream can be read: `sendDiscoveryRequest` reads
  until the inbox is empty, and a response may queue a request and drain the queue before the
  outer send has returned to its own `pop`. However deep the calls nest, a drain is a flat loop.
 */
module ReentrantModel {
  import opened ResourceNames
  import opened MuxModel
  import opened MuxInvariant

  // ---- What the nested calls come to: a flat loop ----

  /** The types of the responses in `inbox` that make the client queue a request, in order. */
  function Provoked(s: State, inbox: seq<Response>): seq<TypeUrl> {
    if inbox == [] then []
    else (if Provoking(s, inbox[0]) then [inbox[0].typeUrl] else []) + Provoked(s, inbox[1..])
  }

  /** `m` has been noted, and its reply is still to come or, for a paused type, put off. */
  function HeardApi(a: Api, m: Response): Api {
    if Answers(a, m) && a.pauses > 0 then Noted(a, m).(pending := true) else Noted(a, m)
  }

  function Heard(s: State, m: Response): State {
    if m.typeUrl in s.apis then WithApi(s, m.typeUrl, HeardApi(s.apis[m.typeUrl], m)) else s
  }

  /** Hears `m`, and sends `t` again if it provokes a reply. */
  ghost function HeardAndSent(x: State, t: TypeUrl, m: Response): State {
    if Provoking(x, m) then SendDiscoveryRequest(Heard(x, m), t) else Heard(x, m)
  }

  /** Hears `inbox`, sending `t` again after every response that provokes a reply. */
  ghost function Interleaved(s: State, t: TypeUrl, inbox: seq<Response>): State
    decreases |inbox|
  {
    if inbox == [] then s else Interleaved(HeardAndSent(s, t, inbox[0]), t, inbox[1..])
  }

  ghost function SendAll(s: State, ts: seq<TypeUrl>): State
    decreases |ts|
  {
    if ts == [] then s else SendAll(SendDiscoveryRequest(s, ts[0]), ts[1..])
  }

  /**
    Draining the queue `q` of a live client: send the front item, and again for every reply
    provoked by what is read; then send the rest of the queue and the replies.
   */
  ghost function Flat(s: State, q: seq<TypeUrl>, inbox: seq<Response>): State
    requires q != []
  {
    var s1 := SendDiscoveryRequest(s.(queue := []), q[0]);
    SendAll(Interleaved(s1, q[0], inbox), q[1..] + Provoked(EnsureApi(s, q[0]), inbox))
  }

  /** Reading `inbox` to its end after a send. */
  ghost function AfterReading(s: State, inbox: seq<Response>): State
    decreases |inbox|
  {
    if inbox == [] then
      s
    else if Provoking(s, inbox[0]) then
      Flat(Heard(s, inbox[0]), s.queue + [inbox[0].typeUrl], inbox[1..])
    else
      AfterReading(Heard(s, inbox[0]), inbox[1..])
  }

  // ---- What does not change ----

  /** Same types, same watchers, same pauses: what decides which responses are answered. */
  ghost predicate SameShape(s: State, s': State) {
    && s'.up == s.up && s'.shut == s.shut && s'.epoch == s.epoch
    && s'.apis.Keys == s.apis.Keys
    && forall t | t in s.apis :: s'.apis[t].watches == s.apis[t].watches && s'.apis[t].pauses == s.apis[t].pauses
  }

  lemma {:induction false} ProvokedByShape(s: State, s': State, inbox: seq<Response>)
    requires SameShape(s, s')
    ensures Provoked(s', inbox) == Provoked(s, inbox)
  {
    if inbox != [] {
      ProvokedByShape(s, s', inbox[1..]);
    }
  }

  lemma SendShape(s: State, t: TypeUrl)
    ensures SameShape(EnsureApi(s, t), SendDiscoveryRequest(EnsureApi(s, t), t))
    ensures !s.shut ==> SendDiscoveryRequest(EnsureApi(s, t), t) == SendDiscoveryRequest(s, t)
  {
    hide NamesOf;
  }

  lemma EnsureKnown(s: State, t: TypeUrl)
    requires t in s.apis
    ensures EnsureApi(s, t) == s
  {
  }

  lemma HeardApiFields(a: Api, m: Response)
    ensures var a' := HeardApi(a, m);
            && a'.watches == a.watches && a'.pauses == a.pauses
            && a'.request.responseNonce == m.nonce && a'.request.typeUrl == a.request.typeUrl
            && a'.request.versionInfo == (if Answers(a, m) then a.request.versionInfo else m.versionInfo)
  {
  }

  lemma HeardShape(s: State, m: Response)
    ensures SameShape(s, Heard(s, m)) && Heard(s, m).queue == s.queue && Heard(s, m).log == s.log
  {
    hide HeardApi;
    if m.typeUrl in s.apis {
      HeardApiFields(s.apis[m.typeUrl], m);
    }
  }

  /** Sending and hearing do not look at the queue. */
  lemma SendIgnoresQueue(s: State, q: seq<TypeUrl>, t: TypeUrl)
    ensures SendDiscoveryRequest(s.(queue := q), t) == SendDiscoveryRequest(s, t).(queue := q)
  {
    hide NamesOf;
  }

  lemma HeardIgnoresQueue(s: State, q: seq<TypeUrl>, m: Response)
    ensures Heard(s.(queue := q), m) == Heard(s, m).(queue := q)
    ensures Provoking(s.(queue := q), m) == Provoking(s, m)
  {
    hide HeardApi;
  }

  /**
    The send of the front item of `q`, begun in `x` and read to its end: with a reply provoked
    the nested drains leave nothing to do; with none the queue is as it was.
   */
  lemma {:induction false} NestedIsFlat(x: State, q: seq<TypeUrl>, inbox: seq<Response>)
    requires x.queue == [] && q != [] && q[0] in x.apis && !x.shut
    ensures var s', us := AfterReading(x.(queue := q), inbox), Provoked(x, inbox);
            if us == [] then s' == Interleaved(x, q[0], inbox).(queue := q)
            else s' == SendAll(Interleaved(x, q[0], inbox), q[1..] + us)
    decreases |inbox|
  {
    if inbox != [] {
      var m, rest := inbox[0], inbox[1..];
      hide SendDiscoveryRequest, Heard, Provoking, SendAll;
      HeardIgnoresQueue(x, q, m);
      HeardShape(x, m);
      var x1 := Heard(x, m);
      ProvokedByShape(x, x1, rest);
      if Provoking(x, m) {
        NestedStep(x, q, m, rest);
      } else {
        assert Provoked(x, inbox) == Provoked(x, rest);
        NestedIsFlat(x1, q, rest);
      }
    }
  }

  lemma NestedStep(x: State, q: seq<TypeUrl>, m: Response, rest: seq<Response>)
    requires x.queue == [] && q != [] && q[0] in x.apis && !x.shut && Provoking(x, m)
    ensures Flat(Heard(x.(queue := q), m), q + [m.typeUrl], rest) ==
            SendAll(Interleaved(SendDiscoveryRequest(Heard(x, m), q[0]), q[0], rest),
                    q[1..] + ([m.typeUrl] + Provoked(x, rest)))
  {
    var x1, y := Heard(x, m), Heard(x.(queue := q), m);
    HeardIgnoresQueue(x, q, m);
    HeardShape(x, m);
    assert y.(queue := []) == x1;
    assert EnsureApi(y, q[0]) == y;
    hide SendDiscoveryRequest, Heard, SendAll, Interleaved;
    ProvokedByShape(x, y, rest);
    assert (q + [m.typeUrl])[1..] + Provoked(x, rest) == q[1..] + ([m.typeUrl] + Provoked(x, rest));
  }

  /** With nothing to read, the flat loop is the drain of `MuxModel`. */
  lemma {:induction false} SendAllIsDrain(s: State)
    ensures SendAll(s.(queue := []), s.queue) == DrainRequests(s)
    decreases |s.queue|
  {
    if s.queue != [] {
      var s1 := SendDiscoveryRequest(s, s.queue[0]);
      var s2 := s1.(queue := s1.queue[1..]);
      SendIgnoresQueue(s, [], s.queue[0]);
      SendAllIsDrain(s2);
    }
  }

  lemma FlatIsDrain(s: State)
    requires s.queue != []
    ensures Flat(s, s.queue, []) == DrainRequests(s)
  {
    hide SendDiscoveryRequest;
    SendAllIsDrain(s);
    assert s.queue[1..] + [] == s.queue[1..];
  }

  lemma {:induction false} DrainSilently(s: State)
    requires s.shut || s.queue == []
    ensures DrainRequests(s) == s.(queue := [])
    decreases |s.queue|
  {
    if s.queue != [] {
      DrainSilently(s.(queue := s.queue[1..]));
    }
  }

  lemma {:induction false} SendAllKeeps(s: State, ts: seq<TypeUrl>)
    ensures SendAll(s, ts).queue == s.queue
    decreases |ts|
  {
    hide NamesOf;
    if ts != [] {
      SendAllKeeps(SendDiscoveryRequest(s, ts[0]), ts[1..]);
    }
  }

  lemma {:induction false} InterleavedKeeps(s: State, t: TypeUrl, inbox: seq<Response>)
    requires Streaming(s)
    ensures Streaming(Interleaved(s, t, inbox)) && Interleaved(s, t, inbox).queue == s.queue
    decreases |inbox|
  {
    hide NamesOf;
    if inbox != [] {
      InterleavedKeeps(HeardAndSent(s, t, inbox[0]), t, inbox[1..]);
    }
  }

  lemma FirstSend(s: State, inbox: seq<Response>)
    requires Streaming(s) && s.queue != []
    ensures var s' := AfterReading(SendDiscoveryRequest(s, s.queue[0]), inbox);
            var flat := Flat(s, s.queue, inbox);
            if Provoked(EnsureApi(s, s.queue[0]), inbox) == [] then
              s'.queue == s.queue && Streaming(s') && SendAll(s'.(queue := []), s.queue[1..]) == flat
            else
              s' == flat && s'.queue == []
  {
    var q := s.queue;
    var x := SendDiscoveryRequest(s.(queue := []), q[0]);
    SendStart(s, inbox);
    hide SendDiscoveryRequest, EnsureApi;
    NestedIsFlat(x, q, inbox);
    InterleavedKeeps(x, q[0], inbox);
    var us := Provoked(x, inbox);
    SendAllKeeps(Interleaved(x, q[0], inbox), q[1..] + us);
    assert us == [] ==> q[1..] + us == q[1..];
  }

  lemma SendStart(s: State, inbox: seq<Response>)
    requires Streaming(s) && s.queue != []
    ensures var q := s.queue;
            var x := SendDiscoveryRequest(s.(queue := []), q[0]);
            && SendDiscoveryRequest(s, q[0]) == x.(queue := q)
            && x.queue == [] && q[0] in x.apis && Streaming(x)
            && Provoked(x, inbox) == Provoked(EnsureApi(s, q[0]), inbox)
  {
    var q := s.queue;
    var s0 := s.(queue := []);
    SendIgnoresQueue(s, [], q[0]);
    SendShape(s0, q[0]);
    hide SendDiscoveryRequest;
    ProvokedByShape(EnsureApi(s0, q[0]), SendDiscoveryRequest(s0, q[0]), inbox);
    ProvokedByShape(EnsureApi(s, q[0]), EnsureApi(s0, q[0]), inbox);
  }

  lemma NextSend(s: State)
    requires s.queue != []
    ensures var s' := SendDiscoveryRequest(s, s.queue[0]);
            && s'.queue == s.queue && (Streaming(s) ==> Streaming(s'))
            && SendAll(s'.(queue := []), s.queue[1..]) == SendAll(s.(queue := []), s.queue)
            && AfterReading(s', []) == s' && Provoked(EnsureApi(s, s.queue[0]), []) == []
  {
    hide NamesOf;
    SendIgnoresQueue(s, [], s.queue[0]);
  }

  /** What a drain comes to does not depend on where the queue is written down. */
  lemma FlatFromQueue(s: State, s2: State, item: TypeUrl, inbox: seq<Response>)
    requires item in s.apis && s2 == s.(queue := s.queue + [item])
    ensures var q := s.queue + [item];
            && Flat(s2, q, inbox) == Flat(s, q, inbox)
            && Provoked(EnsureApi(s2, q[0]), inbox) == Provoked(EnsureApi(s, q[0]), inbox)
    ensures Streaming(s) && s.queue == [] ==>
              |Flat(s, s.queue + [item], inbox).log| == |s.log| + 2 * |Provoked(s, inbox)| + 1 && EnsureApi(s, item) == s
  {
    var q := s.queue + [item];
    hide SendDiscoveryRequest;
    ProvokedByShape(EnsureApi(s, q[0]), EnsureApi(s2, q[0]), inbox);
    if Streaming(s) && s.queue == [] {
      DrainWrites(s, q, inbox);
    }
  }

  // ---- What the writes of a drain say ----

  /** The nonce last received for `t`, or `d` if there is none in `read`. */
  function LastNonceIn(read: seq<Response>, t: TypeUrl, d: string): string {
    if read == [] then d
    else if read[|read| - 1].typeUrl == t then read[|read| - 1].nonce
    else LastNonceIn(read[..|read| - 1], t, d)
  }

  /** The version last received for an unwatched `t` without resources, or `d` if there is none in `read`. */
  function LastVersionIn(read: seq<Response>, t: TypeUrl, d: string): string {
    if read == [] then d
    else if read[|read| - 1].typeUrl == t && read[|read| - 1].resources == [] then read[|read| - 1].versionInfo
    else LastVersionIn(read[..|read| - 1], t, d)
  }

  /** The last of `read` for `t` gives the nonce; without one it is `d`. */
  lemma {:induction false} LastNonceInMeaning(read: seq<Response>, t: TypeUrl, d: string, k: nat)
    requires k <= |read| && forall j | k < j < |read| :: read[j].typeUrl != t
    requires k < |read| ==> read[k].typeUrl == t
    requires k == |read| ==> forall j | 0 <= j < |read| :: read[j].typeUrl != t
    ensures LastNonceIn(read, t, d) == if k < |read| then read[k].nonce else d
  {
    if read != [] && k != |read| - 1 {
      LastNonceInMeaning(read[..|read| - 1], t, d, if k < |read| then k else |read| - 1);
    }
  }

  /** The last of `read` for `t` without resources gives the version; without one it is `d`. */
  lemma {:induction false} LastVersionInMeaning(read: seq<Response>, t: TypeUrl, d: string, k: nat)
    requires k <= |read| && forall j | k < j < |read| :: !(read[j].typeUrl == t && read[j].resources == [])
    requires k < |read| ==> read[k].typeUrl == t && read[k].resources == []
    requires k == |read| ==> forall j | 0 <= j < |read| :: !(read[j].typeUrl == t && read[j].resources == [])
    ensures LastVersionIn(read, t, d) == if k < |read| then read[k].versionInfo else d
  {
    if read != [] && k != |read| - 1 {
      LastVersionInMeaning(read[..|read| - 1], t, d, if k < |read| then k else |read| - 1);
    }
  }

  /** A reply is provoked by a response for a known type that finds a watcher or brings a resource. */
  lemma {:induction false} ProvokedMeaning(s: State, inbox: seq<Response>)
    ensures Provoked(s, inbox) != [] <==>
            exists i :: 0 <= i < |inbox| && inbox[i].typeUrl in s.apis && s.apis[inbox[i].typeUrl].pauses == 0
              && (s.apis[inbox[i].typeUrl].watches != [] || inbox[i].resources != [])
  {
    if inbox != [] {
      var rest := inbox[1..];
      ProvokedMeaning(s, rest);
      if i :| 0 <= i < |rest| && rest[i].typeUrl in s.apis && s.apis[rest[i].typeUrl].pauses == 0
            && (s.apis[rest[i].typeUrl].watches != [] || rest[i].resources != []) {
        assert inbox[i + 1] == rest[i];
      }
      if i :| 0 < i < |inbox| && inbox[i].typeUrl in s.apis && s.apis[inbox[i].typeUrl].pauses == 0
            && (s.apis[inbox[i].typeUrl].watches != [] || inbox[i].resources != []) {
        assert rest[i - 1] == inbox[i];
      }
    }
  }

  /** What the request for `t` says after `read`: nonce, version and type. */
  ghost predicate Says(r: Request, a: Api, t: TypeUrl, read: seq<Response>) {
    && r.responseNonce == LastNonceIn(read, t, a.request.responseNonce)
    && r.versionInfo == (if a.watches == [] then LastVersionIn(read, t, a.request.versionInfo) else a.request.versionInfo)
    && (a.request.typeUrl == t ==> r.typeUrl == t)
  }

  /** A write for `item` made when `read` had been read. */
  datatype Told = Told(item: TypeUrl, read: seq<Response>)

  ghost predicate Tells(w: Sent, s: State, d: Told) {
    && w.stream == s.epoch && w.item == d.item
    && Says(w.request, ApiOf(s, d.item), d.item, d.read)
    && w.request.resourceNames == NamesOf(ApiOf(s, d.item).watches)
  }

  /** From position `n` on, the log is what `tale` says. */
  ghost predicate Follows(log: seq<Sent>, n: nat, s: State, tale: seq<Told>) {
    |log| == n + |tale| && forall j | 0 <= j < |tale| :: Tells(log[n + j], s, tale[j])
  }

  lemma FollowsConcat(log: seq<Sent>, log': seq<Sent>, n: nat, s: State, tale: seq<Told>, tale': seq<Told>)
    requires Follows(log, n, s, tale) && log <= log' && Follows(log', |log|, s, tale')
    ensures Follows(log', n, s, tale + tale')
  {
    hide Tells;
    var all := tale + tale';
    forall j | 0 <= j < |all|
      ensures Tells(log'[n + j], s, all[j])
    {
      if j < |tale| {
        assert log'[n + j] == log[n + j];
      } else {
        assert log'[|log| + (j - |tale|)] == log'[n + j];
      }
    }
  }

  /** `x` is where `s` has come to by reading `read`: nonces and versions, whatever was sent. */
  ghost predicate Reads(s: State, x: State, read: seq<Response>) {
    SameShape(s, x) && forall t | t in s.apis :: Says(x.apis[t].request, s.apis[t], t, read)
  }

  lemma SendTells(s: State, x: State, t: TypeUrl, read: seq<Response>)
    requires Streaming(s) && Reads(s, x, read) && t in s.apis
    ensures var x' := SendDiscoveryRequest(x, t);
            && Reads(s, x', read)
            && x.log <= x'.log && Follows(x'.log, |x.log|, s, [Told(t, read)])
  {
    SendKeeps(x, t);
    var x' := SendDiscoveryRequest(x, t);
    hide NamesOf, SendDiscoveryRequest, LastNonceIn, LastVersionIn;
    assert Tells(x'.log[|x.log|], s, Told(t, read));
  }

  /** A send for a known type: one write with its names, which changes no nonce or version. */
  lemma SendKeeps(x: State, t: TypeUrl)
    requires Streaming(x) && t in x.apis
    ensures var x', a := SendDiscoveryRequest(x, t), x.apis[t];
            && SameShape(x, x') && |x'.log| == |x.log| + 1 && x.log <= x'.log
            && (forall u | u in x.apis && u != t :: x'.apis[u] == x.apis[u])
            && x'.log[|x.log|] == Sent(x.epoch, t, x'.apis[t].request)
            && x'.apis[t].request == a.request.(
                 resourceNames := NamesOf(a.watches),
                 typeUrl := x'.apis[t].request.typeUrl,
                 node := x'.apis[t].request.node)
            && (a.request.typeUrl == t ==> x'.apis[t].request.typeUrl == t)
  {
    hide NamesOf;
  }

  lemma HearReads(s: State, x: State, m: Response, read: seq<Response>)
    requires Reads(s, x, read)
    ensures Reads(s, Heard(x, m), read + [m]) && Heard(x, m).log == x.log && Provoking(x, m) == Provoking(s, m)
  {
    hide HeardApi, Says;
    HeardShape(x, m);
    forall t | t in s.apis
      ensures Says(Heard(x, m).apis[t].request, s.apis[t], t, read + [m])
    {
      HearSays(x.apis[t], s.apis[t], m, read, t);
    }
  }

  lemma HearSays(b: Api, a: Api, m: Response, read: seq<Response>, t: TypeUrl)
    requires Says(b.request, a, t, read) && b.watches == a.watches
    ensures Says(if m.typeUrl == t then HeardApi(b, m).request else b.request, a, t, read + [m])
  {
    hide HeardApi;
    HeardApiFields(b, m);
    assert (read + [m])[..|read|] == read;
  }

  /** How much of `inbox` has been read when the `j`-th reply is provoked. */
  function Cut(s: State, inbox: seq<Response>, j: nat): (c: nat)
    requires j < |Provoked(s, inbox)|
    ensures 0 < c <= |inbox| && Provoking(s, inbox[c - 1]) && inbox[c - 1].typeUrl == Provoked(s, inbox)[j]
  {
    if Provoking(s, inbox[0]) then
      if j == 0 then 1 else 1 + Cut(s, inbox[1..], j - 1)
    else
      1 + Cut(s, inbox[1..], j)
  }

  lemma {:induction false} CutCounts(s: State, inbox: seq<Response>, j: nat)
    requires j < |Provoked(s, inbox)|
    ensures |Provoked(s, inbox[..Cut(s, inbox, j) - 1])| == j
  {
    hide Provoking;
    var c := Cut(s, inbox, j);
    assert c > 1 ==> inbox[..c - 1][1..] == inbox[1..][..c - 2];
    if Provoking(s, inbox[0]) {
      if j > 0 { CutCounts(s, inbox[1..], j - 1); }
    } else {
      CutCounts(s, inbox[1..], j);
    }
  }

  function Repeat(s: State, t: TypeUrl, read: seq<Response>, m: Response): seq<Told> {
    if Provoking(s, m) then [Told(t, read)] else []
  }

  /** The front item `t` once for every reply provoked by `rest`, which is read after `read`. */
  function Repeats(s: State, t: TypeUrl, read: seq<Response>, rest: seq<Response>): seq<Told>
    decreases |rest|
  {
    if rest == [] then
      []
    else
      var now := read + [rest[0]];
      Repeat(s, t, now, rest[0]) + Repeats(s, t, now, rest[1..])
  }

  lemma {:induction false} RepeatsCount(s: State, t: TypeUrl, read: seq<Response>, rest: seq<Response>)
    ensures |Repeats(s, t, read, rest)| == |Provoked(s, rest)|
    decreases |rest|
  {
    if rest != [] {
      RepeatsCount(s, t, read + [rest[0]], rest[1..]);
    }
  }

  lemma ReadOneMore(read: seq<Response>, rest: seq<Response>, c: nat)
    requires 0 < c <= |rest|
    ensures read + rest[..c] == (read + [rest[0]]) + rest[1..][..c - 1]
  {
  }

  /** Before the `j`-th repetition, everything up to the `j`-th provoking response has been read. */
  lemma {:induction false} RepeatsAt(s: State, t: TypeUrl, read: seq<Response>, rest: seq<Response>, j: nat)
    requires j < |Provoked(s, rest)|
    ensures j < |Repeats(s, t, read, rest)| && Repeats(s, t, read, rest)[j] == Told(t, read + rest[..Cut(s, rest, j)])
    decreases |rest|
  {
    hide Provoking;
    var now, c := read + [rest[0]], Cut(s, rest, j);
    ReadOneMore(read, rest, c);
    if !Provoking(s, rest[0]) {
      RepeatsAt(s, t, now, rest[1..], j);
    } else if j > 0 {
      RepeatsAt(s, t, now, rest[1..], j - 1);
    }
  }

  lemma HearAndSend(s: State, x: State, t: TypeUrl, read: seq<Response>, m: Response)
    requires Streaming(s) && Reads(s, x, read) && t in s.apis
    ensures var x' := HeardAndSent(x, t, m);
            && Reads(s, x', read + [m])
            && x.log <= x'.log
            && Follows(x'.log, |x.log|, s, Repeat(s, t, read + [m], m))
  {
    hide SendDiscoveryRequest, Heard, Reads, Provoking, Tells;
    HearReads(s, x, m, read);
    if Provoking(s, m) {
      hide Follows;
      SendTells(s, Heard(x, m), t, read + [m]);
    }
  }

  lemma {:induction false} InterleavedWrites(s: State, x: State, t: TypeUrl, read: seq<Response>, rest: seq<Response>)
    requires Streaming(s) && Reads(s, x, read) && t in s.apis
    ensures var x' := Interleaved(x, t, rest);
            && Reads(s, x', read + rest)
            && x.log <= x'.log && Follows(x'.log, |x.log|, s, Repeats(s, t, read, rest))
    decreases |rest|
  {
    hide HeardAndSent, Reads, Follows, Interleaved, Repeats, Repeat;
    if rest == [] {
      NothingToHear(s, x, t, read);
      assert read + rest == read;
    } else {
      var m, now := rest[0], read + [rest[0]];
      var x1 := HeardAndSent(x, t, m);
      InterleavedStep(s, x, t, read, rest);
      HearAndSend(s, x, t, read, m);
      InterleavedWrites(s, x1, t, now, rest[1..]);
      FollowsConcat(x1.log, Interleaved(x1, t, rest[1..]).log, |x.log|, s,
                    Repeat(s, t, now, m), Repeats(s, t, now, rest[1..]));
    }
  }

  lemma NothingToHear(s: State, x: State, t: TypeUrl, read: seq<Response>)
    ensures Interleaved(x, t, []) == x && Follows(x.log, |x.log|, s, Repeats(s, t, read, []))
  {
  }

  lemma InterleavedStep(s: State, x: State, t: TypeUrl, read: seq<Response>, rest: seq<Response>)
    requires rest != []
    ensures var m, now := rest[0], read + [rest[0]];
            && Interleaved(x, t, rest) == Interleaved(HeardAndSent(x, t, m), t, rest[1..])
            && Repeats(s, t, read, rest) == Repeat(s, t, now, m) + Repeats(s, t, now, rest[1..])
            && read + rest == now + rest[1..]
  {
    hide HeardAndSent, Repeat;
  }

  function Once(ts: seq<TypeUrl>, read: seq<Response>): (r: seq<Told>)
    ensures |r| == |ts| && forall i | 0 <= i < |ts| :: r[i] == Told(ts[i], read)
  {
    seq(|ts|, i requires 0 <= i < |ts| => Told(ts[i], read))
  }

  lemma OnceStep(ts: seq<TypeUrl>, read: seq<Response>)
    requires ts != []
    ensures Once(ts, read) == [Told(ts[0], read)] + Once(ts[1..], read)
  {
  }

  lemma {:induction false} SendAllWrites(s: State, x: State, ts: seq<TypeUrl>, read: seq<Response>)
    requires Streaming(s) && Reads(s, x, read) && forall i | 0 <= i < |ts| :: ts[i] in s.apis
    ensures var x' := SendAll(x, ts);
            && Reads(s, x', read)
            && x.log <= x'.log && Follows(x'.log, |x.log|, s, Once(ts, read))
    decreases |ts|
  {
    if ts != [] {
      hide SendDiscoveryRequest, Reads, Follows;
      SendTells(s, x, ts[0], read);
      var x1 := SendDiscoveryRequest(x, ts[0]);
      SendAllWrites(s, x1, ts[1..], read);
      OnceStep(ts, read);
      hide Once;
      FollowsConcat(x1.log, SendAll(x1, ts[1..]).log, |x.log|, s, [Told(ts[0], read)], Once(ts[1..], read));
    }
  }

  lemma {:induction false} ProvokedAreKnown(s: State, inbox: seq<Response>)
    ensures forall i | 0 <= i < |Provoked(s, inbox)| :: Provoked(s, inbox)[i] in s.apis
  {
    if inbox != [] {
      ProvokedAreKnown(s, inbox[1..]);
    }
  }

  /** The writes of draining `q`, each with what has been read before it. */
  function Tale(s: State, q: seq<TypeUrl>, inbox: seq<Response>): seq<Told>
    requires q != []
  {
    [Told(q[0], [])] + Repeats(s, q[0], [], inbox) + Once(q[1..] + Provoked(s, inbox), inbox)
  }

  /**
    With `k` replies provoked by `inbox`, draining `q` makes `2k + |q|` writes: `k + 1` for the
    front item, each with the last nonce and version among the responses read before it, then
    one for each other item and one for each reply, with those of the whole inbox; every write
    names what the watchers of its type watch.
   */
  lemma DrainWrites(s: State, q: seq<TypeUrl>, inbox: seq<Response>)
    requires Streaming(s) && q != [] && forall i | 0 <= i < |q| :: q[i] in s.apis
    ensures var s' := Flat(s, q, inbox);
            && Reads(s, s', inbox) && s'.queue == []
            && s.log <= s'.log && Follows(s'.log, |s.log|, s, Tale(s, q, inbox))
            && |s'.log| == |s.log| + 2 * |Provoked(s, inbox)| + |q|
  {
    FlatFollows(s, q, inbox);
    RepeatsCount(s, q[0], [], inbox);
    hide Flat, Repeats, Provoked, Tells;
    DrainedQueue(s, q, inbox);
  }

  /**
    The types written by a drain, in order: the front item `k + 1` times, the rest of the queue,
    the types of the `k` provoking responses. And the nonces: the front item's first write has the
    one held, its `j`-th repetition the last one up to the `j`-th provoking response, every later
    write the last one of the inbox.
   */
  lemma DrainOrder(s: State, q: seq<TypeUrl>, inbox: seq<Response>, j: nat)
    requires Streaming(s) && q != [] && (forall i | 0 <= i < |q| :: q[i] in s.apis) && j < 2 * |Provoked(s, inbox)| + |q|
    ensures var s', us := Flat(s, q, inbox), Provoked(s, inbox);
            var n, k := |s.log|, |us|;
            && |s'.log| == n + 2 * k + |q| && s.log <= s'.log
            && var w := s'.log[n + j];
               var held := ApiOf(s, w.item).request.responseNonce;
               if j == 0 then
                 w.item == q[0] && w.request.responseNonce == held
               else if j <= k then
                 w.item == q[0] && w.request.responseNonce == LastNonceIn(inbox[..Cut(s, inbox, j - 1)], q[0], held)
               else
                 && w.item == (if j < k + |q| then q[j - k] else us[j - k - |q|])
                 && w.request.responseNonce == LastNonceIn(inbox, w.item, held)
  {
    hide Flat, Repeats, Provoked, Reads, LastNonceIn, LastVersionIn, NamesOf, Tale, Cut;
    DrainWrites(s, q, inbox);
    TaleAt(s, q, inbox, j);
    assert Tells(Flat(s, q, inbox).log[|s.log| + j], s, Tale(s, q, inbox)[j]);
    NothingReadYet(q[0], ApiOf(s, q[0]).request.responseNonce);
  }

  lemma NothingReadYet(t: TypeUrl, d: string)
    ensures LastNonceIn([], t, d) == d
  {
  }

  /** The `j`-th write of a drain, and what has been read before it. */
  lemma TaleAt(s: State, q: seq<TypeUrl>, inbox: seq<Response>, j: nat)
    requires q != [] && j < 2 * |Provoked(s, inbox)| + |q|
    ensures var tale, us := Tale(s, q, inbox), Provoked(s, inbox);
            var k := |us|;
            && |tale| == 2 * k + |q|
            && tale[j] == if j == 0 then Told(q[0], [])
                          else if j <= k then Told(q[0], inbox[..Cut(s, inbox, j - 1)])
                          else Told(if j < k + |q| then q[j - k] else us[j - k - |q|], inbox)
  {
    hide Repeats, Provoked, Cut, Once;
    var us, rs := Provoked(s, inbox), Repeats(s, q[0], [], inbox);
    RepeatsCount(s, q[0], [], inbox);
    if 0 < j <= |us| {
      RepeatsAt(s, q[0], [], inbox, j - 1);
      NothingBefore(inbox[..Cut(s, inbox, j - 1)]);
    }
    var later := q[1..] + us;
    ConcatAt(Told(q[0], []), rs, Once(later, inbox), j);
    if j > |us| {
      LaterAt(q, us, j - |us| - 1);
    }
  }

  lemma NothingBefore(read: seq<Response>)
    ensures [] + read == read
  {
  }

  lemma ConcatAt(a: Told, b: seq<Told>, c: seq<Told>, j: nat)
    requires j < 1 + |b| + |c|
    ensures ([a] + b + c)[j] == if j == 0 then a else if j <= |b| then b[j - 1] else c[j - |b| - 1]
  {
  }

  lemma LaterAt(q: seq<TypeUrl>, us: seq<TypeUrl>, i: nat)
    requires q != [] && i < |q| - 1 + |us|
    ensures (q[1..] + us)[i] == if i + 1 < |q| then q[i + 1] else us[i + 1 - |q|]
  {
  }

  lemma FlatFollows(s: State, q: seq<TypeUrl>, inbox: seq<Response>)
    requires Streaming(s) && q != [] && forall i | 0 <= i < |q| :: q[i] in s.apis
    ensures var s' := Flat(s, q, inbox);
            Reads(s, s', inbox) && s.log <= s'.log && Follows(s'.log, |s.log|, s, Tale(s, q, inbox))
  {
    var x0 := s.(queue := []);
    var x1 := SendDiscoveryRequest(x0, q[0]);
    EnsureKnown(s, q[0]);
    NothingRead(s, x0);
    ProvokedAreKnown(s, inbox);
    hide Reads, Follows, Provoked, Repeats, Interleaved, SendAll, SendDiscoveryRequest, EnsureApi;
    SendTells(s, x0, q[0], []);
    FlatAfterFirst(s, x1, q[0], q[1..] + Provoked(s, inbox), inbox);
  }

  /** The flat loop from the first write on. */
  lemma FlatAfterFirst(s: State, x1: State, t: TypeUrl, later: seq<TypeUrl>, inbox: seq<Response>)
    requires Streaming(s) && t in s.apis && forall i | 0 <= i < |later| :: later[i] in s.apis
    requires Reads(s, x1, []) && s.log <= x1.log && Follows(x1.log, |s.log|, s, [Told(t, [])])
    ensures var s' := SendAll(Interleaved(x1, t, inbox), later);
            && Reads(s, s', inbox) && s.log <= s'.log
            && Follows(s'.log, |s.log|, s, [Told(t, [])] + Repeats(s, t, [], inbox) + Once(later, inbox))
  {
    hide Reads, Follows, Repeats, Interleaved, SendAll, Once;
    InterleavedWrites(s, x1, t, [], inbox);
    var x2 := Interleaved(x1, t, inbox);
    assert [] + inbox == inbox;
    SendAllWrites(s, x2, later, inbox);
    FollowsConcat(x1.log, x2.log, |s.log|, s, [Told(t, [])], Repeats(s, t, [], inbox));
    FollowsConcat(x2.log, SendAll(x2, later).log, |s.log|, s, [Told(t, [])] + Repeats(s, t, [], inbox), Once(later, inbox));
  }

  lemma NothingRead(s: State, x: State)
    requires x == s.(queue := [])
    ensures Reads(s, x, [])
  {
  }

  lemma DrainedQueue(s: State, q: seq<TypeUrl>, inbox: seq<Response>)
    requires Streaming(s) && q != []
    ensures Flat(s, q, inbox).queue == []
  {
    hide NamesOf;
    var x := SendDiscoveryRequest(s.(queue := []), q[0]);
    assert Streaming(x) && x.queue == [];
    hide SendDiscoveryRequest;
    InterleavedKeeps(x, q[0], inbox);
    SendAllKeeps(Interleaved(x, q[0], inbox), q[1..] + Provoked(EnsureApi(s, q[0]), inbox));
  }
}
