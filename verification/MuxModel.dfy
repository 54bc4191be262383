/**
  The ADS multiplexer as a state machine: one transition per public call of
  `AdsClient` and `Watcher`, with nothing to read from the stream during the call.
  Every function below follows the C++ member of the same name branch by branch.
 */
module MuxModel {
  import opened ResourceNames

  type TypeUrl = string

  const CLUSTER: TypeUrl := "type.googleapis.com/envoy.config.cluster.v3.Cluster"

  datatype Option<+T> = None | Some(value: T)

  datatype Node = Node(id: string, cluster: string, metadata: map<string, string>)

  const NODE := Node("test-id", "test-cluster", map["test" := "data1"])

  datatype Request = Request(
    typeUrl: TypeUrl,
    versionInfo: string,
    responseNonce: string,
    resourceNames: seq<Name>,
    node: Option<Node>)

  datatype Resource = Resource(typeUrl: TypeUrl, value: string)

  datatype Response = Response(
    typeUrl: TypeUrl,
    versionInfo: string,
    nonce: string,
    resources: seq<Resource>)

  /** A live watcher as an entry of its type's watch list. */
  datatype Watch = Watch(id: nat, resources: set<Name>)

  datatype Api = Api(
    watches: seq<Watch>,
    request: Request,
    pauses: nat,
    pending: bool,
    subscribed: bool,
    mustSendNode: bool,
    previouslyFetchedData: bool)

  const NEW_API := Api([], Request("", "", "", [], None), 0, false, false, false, false)

  /** One write on a stream: which stream, the queue item it was sent for, the message. */
  datatype Sent = Sent(stream: nat, item: TypeUrl, request: Request)

  /** `epoch` counts the streams opened so far; `log` holds every write ever made. */
  datatype State = State(
    up: bool,
    first: bool,
    shut: bool,
    subs: seq<TypeUrl>,
    apis: map<TypeUrl, Api>,
    queue: seq<TypeUrl>,
    epoch: nat,
    log: seq<Sent>)

  const INIT := State(false, true, false, [CLUSTER], map[], [], 0, [])

  datatype Event =
    | Establish(ok: bool)
    | AddWatch(typeUrl: TypeUrl, id: nat, resources: set<Name>)
    | Update(typeUrl: TypeUrl, id: nat, resources: set<Name>)
    | Destroy(typeUrl: TypeUrl, id: nat)
    | Receive(message: Response)
    | Shutdown

  // ---- Watch lists ----

  predicate Watches(ws: seq<Watch>, id: nat) {
    exists i :: 0 <= i < |ws| && ws[i].id == id
  }

  function IndexOf(ws: seq<Watch>, id: nat): (i: nat)
    ensures i <= |ws|
    ensures i < |ws| ==> ws[i].id == id
    ensures forall j | 0 <= j < i :: ws[j].id != id
  {
    if ws == [] || ws[0].id == id then 0 else 1 + IndexOf(ws[1..], id)
  }

  /** The list after `erase(iter)` for the watcher `id`. */
  function Erase(ws: seq<Watch>, id: nat): seq<Watch> {
    var i := IndexOf(ws, id);
    if i < |ws| then ws[..i] + ws[i + 1..] else ws
  }

  function ResourcesOf(ws: seq<Watch>, id: nat): set<Name> {
    var i := IndexOf(ws, id);
    if i < |ws| then ws[i].resources else {}
  }

  function SetsOf(ws: seq<Watch>): (r: seq<set<Name>>)
    ensures |r| == |ws| && forall i | 0 <= i < |ws| :: r[i] == ws[i].resources
  {
    seq(|ws|, i requires 0 <= i < |ws| => ws[i].resources)
  }

  ghost function NamesOf(ws: seq<Watch>): seq<Name> {
    Names(SetsOf(ws))
  }

  /** The names for a watch list: what its watchers watch, once each, the front of the list first. */
  lemma NamesOfMeaning(ws: seq<Watch>)
    ensures NoDuplicates(NamesOf(ws)) && InSetOrder(NamesOf(ws), SetsOf(ws))
    ensures forall x :: x in NamesOf(ws) <==> exists i :: 0 <= i < |ws| && x in ws[i].resources
  {
    NamesMeaning(SetsOf(ws));
    hide Names, Precedes;
    forall x
      ensures InSome(SetsOf(ws), x) <==> exists i :: 0 <= i < |ws| && x in ws[i].resources
    {
      if InSome(SetsOf(ws), x) {
        var i :| 0 <= i < |SetsOf(ws)| && x in SetsOf(ws)[i];
        assert x in ws[i].resources;
      }
      if i :| 0 <= i < |ws| && x in ws[i].resources {
        assert x in SetsOf(ws)[i];
      }
    }
  }

  // ---- AdsClient ----

  function ApiOf(s: State, t: TypeUrl): Api {
    if t in s.apis then s.apis[t] else NEW_API
  }

  function WithApi(s: State, t: TypeUrl, a: Api): State {
    s.(apis := s.apis[t := a])
  }

  /** `apiStateFor`: find the state of `t`, creating it if there is none. */
  function EnsureApi(s: State, t: TypeUrl): State {
    WithApi(s, t, ApiOf(s, t))
  }

  ghost function SendDiscoveryRequest(s: State, t: TypeUrl): (s': State)
    ensures s'.queue == s.queue
  {
    if s.shut then
      s
    else
      var a := ApiOf(s, t);
      var request := a.request.(resourceNames := NamesOf(a.watches));
      var joins := (a.mustSendNode || s.first) && !a.subscribed;
      var sent :=
        if a.mustSendNode || s.first then
          if joins then request.(typeUrl := t, node := Some(NODE)) else request
        else
          request.(node := None);
      var a' := a.(
        request := sent,
        subscribed := a.subscribed || joins,
        mustSendNode := false);
      s.(apis := s.apis[t := a'],
         subs := if joins then s.subs + [t] else s.subs,
         first := false,
         log := s.log + [Sent(s.epoch, t, sent)])
  }

  ghost function DrainRequests(s: State): (s': State)
    ensures s'.queue == []
    decreases |s.queue|
  {
    if s.queue == [] then
      s
    else
      var s1 := SendDiscoveryRequest(s, s.queue[0]);
      DrainRequests(s1.(queue := s1.queue[1..]))
  }

  ghost function QueueDiscoveryRequest(s: State, t: TypeUrl): State {
    if !s.up then
      s
    else if ApiOf(s, t).pauses > 0 then
      WithApi(s, t, ApiOf(s, t).(pending := true))
    else
      var s1 := EnsureApi(s, t);
      DrainRequests(s1.(queue := s1.queue + [t]))
  }

  function ClearNonce(apis: map<TypeUrl, Api>): map<TypeUrl, Api> {
    map t | t in apis :: apis[t].(request := apis[t].request.(responseNonce := ""))
  }

  /** The listed types that are not subscribed yet. */
  ghost function Unsubscribed(s: State): set<TypeUrl> {
    set t | t in s.subs && !ApiOf(s, t).subscribed
  }

  /**
    The loop over `subscriptions_` from position `i`. The list may grow under the
    loop, but only by a type that stops being unsubscribed at that moment.
   */
  ghost function QueueSubscriptions(s: State, i: nat): State
    requires s.queue == [] && i <= |s.subs|
    decreases |Unsubscribed(s)|, |s.subs| - i
  {
    if i == |s.subs| then
      s
    else
      QueueKeepsMeasure(s, s.subs[i]);
      QueueSubscriptions(QueueDiscoveryRequest(s, s.subs[i]), i + 1)
  }

  lemma QueueKeepsMeasure(s: State, t: TypeUrl)
    requires s.queue == [] && t in s.subs
    ensures var s' := QueueDiscoveryRequest(s, t);
            && s'.queue == []
            && |s'.subs| >= |s.subs|
            && (|Unsubscribed(s')| < |Unsubscribed(s)|
                || (|Unsubscribed(s')| == |Unsubscribed(s)| && s'.subs == s.subs))
  {
    hide NamesOf;
    var s' := QueueDiscoveryRequest(s, t);
    if s.up && ApiOf(s, t).pauses == 0 {
      var s1 := EnsureApi(s, t).(queue := [t]);
      var s2 := SendDiscoveryRequest(s1, t);
      assert s1.queue == s.queue + [t];
      assert s' == DrainRequests(s1) == s2.(queue := []);
    }
    assert forall u | u != t :: ApiOf(s', u).subscribed == ApiOf(s, u).subscribed;
    hide SendDiscoveryRequest, DrainRequests, QueueDiscoveryRequest;
    UnsubscribedChanges(s, s', t);
  }

  lemma UnsubscribedChanges(s: State, s': State, t: TypeUrl)
    requires t in s.subs && forall u | u != t :: ApiOf(s', u).subscribed == ApiOf(s, u).subscribed
    requires || (s'.subs == s.subs && ApiOf(s', t).subscribed == ApiOf(s, t).subscribed)
             || (s'.subs == s.subs + [t] && !ApiOf(s, t).subscribed && ApiOf(s', t).subscribed)
    ensures if s'.subs == s.subs then |Unsubscribed(s')| == |Unsubscribed(s)| else |Unsubscribed(s')| < |Unsubscribed(s)|
  {
    hide ApiOf;
    if s'.subs == s.subs {
      assert Unsubscribed(s') == Unsubscribed(s);
    } else {
      assert Unsubscribed(s') == Unsubscribed(s) - {t};
      assert t in Unsubscribed(s);
    }
  }

  ghost function OnStreamEstablished(s: State, ok: bool): State {
    if !ok then
      s.(up := false)
    else
      QueueSubscriptions(
        s.(up := true, first := true, apis := ClearNonce(s.apis), queue := [], epoch := s.epoch + 1), 0)
  }

  ghost function OnDiscoveryResponse(s: State, m: Response): State {
    var t := m.typeUrl;
    if t !in s.apis then
      s
    else
      var a := s.apis[t];
      var noted := a.(request := a.request.(responseNonce := m.nonce));
      if a.watches == [] then
        if m.resources == [] then
          WithApi(s, t, noted.(request := noted.request.(versionInfo := m.versionInfo)))
        else
          QueueDiscoveryRequest(WithApi(s, t, noted), t)
      else
        QueueDiscoveryRequest(WithApi(s, t, noted.(previouslyFetchedData := true)), t)
  }

  // ---- Watcher ----

  function PushWatch(s: State, t: TypeUrl, w: Watch): State {
    var a := ApiOf(s, t);
    WithApi(s, t, a.(watches := [w] + a.watches))
  }

  function EraseWatch(s: State, t: TypeUrl, id: nat): State {
    var a := ApiOf(s, t);
    WithApi(s, t, a.(watches := Erase(a.watches, id)))
  }

  /** The first-subscription branch of `addWatch`. */
  function Subscribe(s: State, t: TypeUrl): State {
    var a := ApiOf(s, t);
    if a.subscribed then
      s
    else
      WithApi(s, t, a.(request := a.request.(typeUrl := t), subscribed := true)).(subs := s.subs + [t])
  }

  ghost function DoAddWatch(s: State, t: TypeUrl, id: nat, rs: set<Name>): State {
    QueueDiscoveryRequest(Subscribe(PushWatch(s, t, Watch(id, rs)), t), t)
  }

  ghost function DoDestroy(s: State, t: TypeUrl, id: nat): State {
    var s1 := EraseWatch(s, t, id);
    if ResourcesOf(ApiOf(s, t).watches, id) != {} then QueueDiscoveryRequest(s1, t) else s1
  }

  ghost function DoUpdate(s: State, t: TypeUrl, id: nat, rs: set<Name>): State {
    QueueDiscoveryRequest(PushWatch(DoDestroy(s, t, id), t, Watch(id, rs)), t)
  }

  // ---- Runs ----

  ghost function Step(s: State, e: Event): State {
    match e
    case Establish(ok) => OnStreamEstablished(s, ok)
    case AddWatch(t, id, rs) => DoAddWatch(s, t, id, rs)
    case Update(t, id, rs) => DoUpdate(s, t, id, rs)
    case Destroy(t, id) => DoDestroy(s, t, id)
    case Receive(m) => OnDiscoveryResponse(s, m)
    case Shutdown => s.(shut := true)
  }

  /**
    What callers owe: a new watcher is not already alive, an updated or destroyed one
    is, and `shutdown` is called on a stream.
   */
  predicate Legal(s: State, e: Event) {
    match e
    case AddWatch(t, id, _) => !Watches(ApiOf(s, t).watches, id)
    case Update(t, id, _) => Watches(ApiOf(s, t).watches, id)
    case Destroy(t, id) => Watches(ApiOf(s, t).watches, id)
    case Shutdown => s.up
    case _ => true
  }

  ghost function Run(h: seq<Event>): State {
    if h == [] then INIT else Step(Run(h[..|h| - 1]), h[|h| - 1])
  }

  ghost predicate LegalRun(h: seq<Event>) {
    h == [] || (LegalRun(h[..|h| - 1]) && Legal(Run(h[..|h| - 1]), h[|h| - 1]))
  }
}
