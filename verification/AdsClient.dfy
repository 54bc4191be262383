/**
  The multiplexer as it is built: objects that share watch lists by reference. Every public
  call of `AdsClient` and `Watcher` is proved to take the step of `MuxModel` with the same
  name, and so to keep `history` a legal run.
 */
module AdsClientObjects {
  import opened ResourceNames
  import opened MuxModel
  import MuxInvariant
  import MuxWire

  /** A node of a watch list; what an iterator of the list denotes. */
  class Entry {
    const watcher: Watcher

    constructor (watcher: Watcher)
      ensures this.watcher == watcher
    {
      this.watcher := watcher;
    }
  }

  /** `std::list<Watcher*>`. */
  class WatchList {
    var entries: seq<Entry>

    constructor ()
      ensures entries == []
    {
      entries := [];
    }
  }

  class ApiState {
    const watches: WatchList
    var request: Request
    var pauses: nat
    var pending: bool
    var subscribed: bool
    var mustSendNode: bool
    var previouslyFetchedData: bool

    constructor ()
      ensures fresh(watches) && watches.entries == []
      ensures Fields() == NEW_API
    {
      watches := new WatchList();
      request := Request("", "", "", [], None);
      pauses, pending, subscribed, mustSendNode, previouslyFetchedData := 0, false, false, false, false;
    }

    /** Everything but the watch list. */
    function Fields(): Api
      reads this
    {
      Api([], request, pauses, pending, subscribed, mustSendNode, previouslyFetchedData)
    }

    method Assign(f: Api)
      requires f.watches == []
      modifies this
      ensures Fields() == f
    {
      request, pauses, pending := f.request, f.pauses, f.pending;
      subscribed, mustSendNode, previouslyFetchedData := f.subscribed, f.mustSendNode, f.previouslyFetchedData;
    }
  }

  /** `ws` is what the watchers in `entries` watch. */
  ghost predicate Shows(entries: seq<Entry>, ws: seq<Watch>)
    reads set e | e in entries :: e.watcher
  {
    && |entries| == |ws|
    && forall i | 0 <= i < |ws| :: ws[i] == Watch(entries[i].watcher.id, entries[i].watcher.resources)
  }

  /** What the watchers in `entries` watch, in list order. */
  function Resources(entries: seq<Entry>): seq<set<Name>>
    reads set e | e in entries :: e.watcher
  {
    if entries == [] then []
    else Resources(entries[..|entries| - 1]) + [entries[|entries| - 1].watcher.resources]
  }

  lemma {:induction false} ResourcesShown(entries: seq<Entry>, ws: seq<Watch>)
    requires Shows(entries, ws)
    ensures Resources(entries) == SetsOf(ws)
  {
    if entries != [] {
      var n := |entries| - 1;
      ResourcesShown(entries[..n], ws[..n]);
      assert SetsOf(ws) == SetsOf(ws[..n]) + [ws[n].resources];
    }
  }

  /** The names for a list of watcher objects, by the loops of `sendDiscoveryRequest`. */
  method GatherNames(list: WatchList, ghost ws: seq<Watch>) returns (names: seq<Name>)
    requires Shows(list.entries, ws)
    ensures names == NamesOf(ws)
    ensures NoDuplicates(names) && InSetOrder(names, SetsOf(ws))
    ensures forall x :: x in names <==> exists i :: 0 <= i < |list.entries| && x in list.entries[i].watcher.resources
  {
    hide Names, InSetOrder;
    NamesOfMeaning(ws);
    assert forall i | 0 <= i < |ws| :: ws[i].resources == list.entries[i].watcher.resources;
    ResourcesShown(list.entries, ws);
    names := CollectNames(Resources(list.entries));
  }

  lemma ClearOne(apis: map<TypeUrl, Api>, t: TypeUrl)
    ensures t in apis ==>
              ClearNonce(apis[t := apis[t].(request := apis[t].request.(responseNonce := ""))]) == ClearNonce(apis)
  {
  }

  lemma AllClear(apis: map<TypeUrl, Api>)
    requires forall t | t in apis :: apis[t].request.responseNonce == ""
    ensures ClearNonce(apis) == apis
  {
  }

  /** Removing the same position from a list of entries and from what it shows. */
  lemma RemovedAt(es: seq<Entry>, ws: seq<Watch>, i: nat, es': seq<Entry>, ws': seq<Watch>)
    requires |es| == |ws| && i < |es|
    requires es' == es[..i] + es[i + 1..] && ws' == ws[..i] + ws[i + 1..]
    ensures |es'| == |ws'|
    ensures forall j | 0 <= j < i :: es'[j] == es[j] && ws'[j] == ws[j]
    ensures forall j | i <= j < |es'| :: es'[j] == es[j + 1] && ws'[j] == ws[j + 1]
  {
  }

  /** Removing one position from a list without repetition. */
  lemma RemovedEntry(es: seq<Entry>, i: int, es': seq<Entry>)
    requires 0 <= i < |es| && es' == es[..i] + es[i + 1..]
    requires forall j, k | 0 <= j < k < |es| :: es[j] != es[k]
    ensures forall j, k | 0 <= j < k < |es'| :: es'[j] != es'[k]
    ensures forall j | 0 <= j < |es'| :: es'[j] in es && es'[j] != es[i]
  {
    assert forall j | 0 <= j < |es'| :: es'[j] == es[if j < i then j else j + 1];
  }

  /** The request built from `r`; `open` says that the node is not to be cleared. */
  function Composed(r: Request, joins: bool, open: bool, t: TypeUrl, names: seq<Name>): Request {
    r.(resourceNames := names,
       typeUrl := if joins then t else r.typeUrl,
       node := if joins then Some(NODE) else if open then r.node else None)
  }

  lemma SendParts(s: State, t: TypeUrl)
    requires !s.shut && t in s.apis
    ensures var a := s.apis[t];
            var joins := (a.mustSendNode || s.first) && !a.subscribed;
            var request := Composed(a.request, joins, a.mustSendNode || s.first, t, NamesOf(a.watches));
            var a' := a.(request := request, subscribed := a.subscribed || joins, mustSendNode := false);
            SendDiscoveryRequest(s, t) ==
            State(s.up, false, s.shut, if joins then s.subs + [t] else s.subs, s.apis[t := a'], s.queue, s.epoch,
                  s.log + [Sent(s.epoch, t, request)])
  {
    hide NamesOf;
  }

  lemma QueueParts(s: State, t: TypeUrl)
    ensures var s1 := EnsureApi(s, t);
            && t in s1.apis
            && QueueDiscoveryRequest(s, t) ==
               if !s.up then s
               else if s1.apis[t].pauses > 0 then WithApi(s1, t, s1.apis[t].(pending := true))
               else DrainRequests(s1.(queue := s1.queue + [t]))
  {
    hide DrainRequests;
  }

  lemma SendEnsured(s: State, t: TypeUrl)
    ensures s.shut ==> SendDiscoveryRequest(s, t) == s
    ensures !s.shut ==> SendDiscoveryRequest(EnsureApi(s, t), t) == SendDiscoveryRequest(s, t)
  {
    hide NamesOf;
  }

  class AdsClient {
    var stream: bool
    var firstStreamRequest: bool
    var isShutdown: bool
    var subscriptions: seq<TypeUrl>
    var apiState: map<TypeUrl, ApiState>
    var requestQueue: seq<TypeUrl>
    /** The writes made, each with the number of the stream it went out on. */
    var streams: nat
    var written: seq<Sent>

    ghost var model: State
    ghost var history: seq<Event>
    ghost var states: set<ApiState>
    ghost var lists: set<WatchList>
    ghost var watchers: set<Watcher>
    ghost var created: nat

    /** No two types share a state or a list. */
    ghost predicate Separate()
      reads `apiState, `states, `lists
    {
      && (forall t | t in apiState :: apiState[t] in states && apiState[t].watches in lists)
      && forall t, u | t in apiState && u in apiState && t != u ::
        apiState[t] != apiState[u] && apiState[t].watches != apiState[u].watches
    }

    /** Every entry belongs to a live watcher of this type, whose iterator denotes it. */
    ghost predicate EntriesLinked(t: TypeUrl)
      requires t in apiState
      reads `apiState, `watchers, apiState[t].watches, watchers
    {
      var es := apiState[t].watches.entries;
      && (forall i, j | 0 <= i < j < |es| :: es[i] != es[j])
      && (forall i | 0 <= i < |es| ::
            && es[i].watcher in watchers
            && es[i].watcher.iter == es[i]
            && es[i].watcher.typeUrl == t)
    }

    /** Every live watcher is in the one list ever created for its type. */
    ghost predicate WatcherLinked(w: Watcher)
      reads `apiState, `created, w, w.watches
    {
      && w.parent == this
      && w.typeUrl in apiState
      && w.watches == apiState[w.typeUrl].watches
      && w.iter in w.watches.entries
      && w.iter.watcher == w
      && w.id < created
    }

    ghost predicate Linked()
      reads `apiState, `states, `lists, `watchers, `created, lists, watchers
    {
      && Separate()
      && (forall t | t in apiState :: EntriesLinked(t))
      && (forall w | w in watchers :: w.watches in lists && WatcherLinked(w))
      && (forall v, w | v in watchers && w in watchers && v != w :: v.id != w.id)
    }

    ghost predicate WatchesShown(apis: map<TypeUrl, Api>)
      reads `apiState, `watchers, `lists, lists, watchers
    {
      forall t | t in apiState && t in apis && apiState[t].watches in lists ::
        && EntriesLinked(t)
        && Shows(apiState[t].watches.entries, apis[t].watches)
    }

    ghost predicate FieldsShown(apis: map<TypeUrl, Api>)
      reads `apiState, `states, states
    {
      && apis.Keys == apiState.Keys
      && forall t | t in apiState && apiState[t] in states :: apiState[t].Fields() == apis[t].(watches := [])
    }

    ghost predicate ScalarsShown()
      reads this
    {
      model == State(stream, firstStreamRequest, isShutdown, subscriptions, model.apis, requestQueue, streams, written)
    }

    ghost predicate Valid()
      reads this, states, lists, watchers
    {
      Linked() && WatchesShown(model.apis) && FieldsShown(model.apis) && ScalarsShown()
    }

    lemma Shown(t: TypeUrl)
      requires Valid() && t in apiState
      ensures t in model.apis
      ensures EntriesLinked(t) && Shows(apiState[t].watches.entries, model.apis[t].watches)
      ensures apiState[t].Fields() == model.apis[t].(watches := [])
      ensures ScalarsShown()
    {
    }

    /** The object is where its history of public calls has brought it. */
    ghost predicate Reached()
      reads this
    {
      LegalRun(history) && model == Run(history)
    }

    constructor ()
      ensures Valid() && Reached() && history == [] && watchers == {} && states == {} && lists == {}
    {
      stream, firstStreamRequest, isShutdown := false, true, false;
      subscriptions, apiState, requestQueue, streams, written := [CLUSTER], map[], [], 0, [];
      model, history, states, lists, watchers, created := INIT, [], {}, {}, {}, 0;
    }

    /** The state of a type, once created, stays the same object. */
    twostate predicate KeepsStates()
      reads this
    {
      && (forall t | t in old(apiState) :: t in apiState && apiState[t] == old(apiState[t]))
      && old(states) <= states && fresh(states - old(states))
      && old(lists) <= lists && fresh(lists - old(lists))
    }

    twostate predicate KeepsWatchers()
      reads this
    {
      watchers == old(watchers) && created == old(created) && history == old(history)
    }

    /** A new, empty state has been added for `t`, and nothing else has changed. */
    twostate predicate Adds(t: TypeUrl)
      reads *
    {
      && t !in old(apiState) && t in apiState && fresh(apiState[t]) && fresh(apiState[t].watches)
      && apiState == old(apiState)[t := apiState[t]]
      && apiState[t].Fields() == NEW_API && apiState[t].watches.entries == []
      && states == old(states) + {apiState[t]} && lists == old(lists) + {apiState[t].watches}
      && unchanged(old(states)) && unchanged(old(lists)) && unchanged(old(watchers))
    }

    twostate lemma AddedLinks(t: TypeUrl)
      requires old(Valid()) && Adds(t) && KeepsWatchers()
      ensures Linked()
    {
      hide WatchesShown, FieldsShown, ScalarsShown;
      forall u | u in old(apiState)
        ensures EntriesLinked(u)
      {
        assert old(EntriesLinked(u)) && old(apiState[u].watches in lists);
      }
      forall w | w in watchers
        ensures WatcherLinked(w)
      {
        assert old(WatcherLinked(w));
      }
    }

    /** Adding a new state for `t` leaves the others as they were. */
    twostate lemma AddedState(t: TypeUrl)
      requires old(Valid()) && Adds(t) && KeepsWatchers()
      requires model == EnsureApi(old(model), t) && ScalarsShown()
      ensures Valid() && KeepsStates()
    {
      AddedLinks(t);
      forall u | u in old(apiState)
        ensures EntriesLinked(u) && Shows(apiState[u].watches.entries, model.apis[u].watches)
        ensures apiState[u].Fields() == model.apis[u].(watches := [])
      {
        assert old(EntriesLinked(u)) && old(apiState[u].watches in lists);
      }
    }

    method ApiStateFor(t: TypeUrl) returns (api: ApiState)
      requires Valid()
      modifies this`apiState, this`model, this`states, this`lists
      ensures Valid() && KeepsStates() && KeepsWatchers()
      ensures t in apiState && api == apiState[t] && api in states && api.watches in lists
      ensures model == EnsureApi(old(model), t)
    {
      hide Valid;
      Owned(t);
      if t !in apiState {
        api := new ApiState();
        apiState := apiState[t := api];
        states, lists := states + {api}, lists + {api.watches};
        model := EnsureApi(model, t);
        AddedState(t);
      } else {
        api := apiState[t];
        assert model == EnsureApi(model, t);
      }
    }

    /** Changing the fields of one state, as the model says, breaks nothing. */
    twostate lemma ChangedFields(t: TypeUrl)
      requires old(Valid()) && t in old(apiState) && apiState == old(apiState) && KeepsWatchers()
      requires states == old(states) && lists == old(lists)
      requires unchanged(old(lists)) && unchanged(old(watchers)) && unchanged(old(states) - {old(apiState[t])})
      requires t in model.apis && model.apis == old(model.apis)[t := model.apis[t]] && ScalarsShown()
      requires model.apis[t].watches == old(model.apis[t].watches)
      requires apiState[t].Fields() == model.apis[t].(watches := [])
      ensures Valid()
    {
      assert Linked() && Separate();
      forall u | u in apiState
        ensures EntriesLinked(u) && Shows(apiState[u].watches.entries, model.apis[u].watches)
        ensures apiState[u].Fields() == model.apis[u].(watches := [])
      {
        assert old(EntriesLinked(u)) && old(Shows(apiState[u].watches.entries, model.apis[u].watches));
        assert u != t ==> apiState[u] in old(states) - {old(apiState[t])};
      }
    }

    /** Assigns the fields of one state; its watch list stays. */
    method Assign(t: TypeUrl, api: ApiState, f: Api)
      requires Valid() && t in apiState && api == apiState[t] && f.watches == []
      modifies this`model, api
      ensures Valid()
      ensures t in old(model.apis) && model == WithApi(old(model), t, f.(watches := old(model.apis[t]).watches))
    {
      hide Valid, EntriesLinked, Shows, ApiState.Fields;
      Shown(t);
      ghost var a := f.(watches := model.apis[t].watches);
      assert a.(watches := []) == f;
      api.Assign(f);
      model := WithApi(model, t, a);
      ChangedFields(t);
    }

    /** The request to write for `t`, and whether `t` joins the subscriptions with it. */
    method ComposeRequest(t: TypeUrl, api: ApiState, names: seq<Name>) returns (request: Request, joins: bool)
      ensures joins == ((api.mustSendNode || firstStreamRequest) && !api.subscribed)
      ensures request == Composed(api.request, joins, api.mustSendNode || firstStreamRequest, t, names)
    {
      request, joins := api.request.(resourceNames := names), false;
      if api.mustSendNode || firstStreamRequest {
        if !api.subscribed {
          request := request.(typeUrl := t, node := Some(NODE));
          joins := true;
        }
      } else {
        request := request.(node := None);
      }
    }

    method Write(t: TypeUrl, request: Request, joins: bool)
      requires Valid()
      modifies this`subscriptions, this`written, this`firstStreamRequest, this`model
      ensures Valid()
      ensures model == old(model).(
                subs := if joins then old(model).subs + [t] else old(model).subs,
                log := old(model).log + [Sent(old(model).epoch, t, request)],
                first := false)
    {
      hide Linked, WatchesShown, FieldsShown;
      if joins {
        subscriptions := subscriptions + [t];
      }
      written := written + [Sent(streams, t, request)];
      firstStreamRequest := false;
      model := model.(subs := subscriptions, log := written, first := false);
    }

    /** The second half of `sendDiscoveryRequest`: node, subscription and the write. */
    method WriteRequest(t: TypeUrl, api: ApiState, names: seq<Name>)
      requires Valid() && t in apiState && api == apiState[t] && !isShutdown
      requires t in model.apis && names == NamesOf(model.apis[t].watches)
      modifies this, api
      ensures Valid() && KeepsWatchers()
      ensures apiState == old(apiState) && states == old(states) && lists == old(lists)
      ensures model == MuxModel.SendDiscoveryRequest(old(model), t)
    {
      hide NamesOf, MuxModel.SendDiscoveryRequest, Composed, Linked, WatchesShown, FieldsShown, EntriesLinked, Shows;
      Shown(t);
      SendParts(model, t);
      var request, joins := ComposeRequest(t, api, names);
      Assign(t, api, api.Fields().(request := request, subscribed := api.subscribed || joins, mustSendNode := false));
      Write(t, request, joins);
    }

    method SendDiscoveryRequest(t: TypeUrl)
      requires Valid()
      modifies this, states
      ensures Valid() && KeepsStates() && KeepsWatchers()
      ensures model == MuxModel.SendDiscoveryRequest(old(model), t)
    {
      hide NamesOf, MuxModel.SendDiscoveryRequest, Linked, WatchesShown, FieldsShown, EntriesLinked, Shows;
      SendEnsured(model, t);
      if isShutdown {
        return;
      }
      var api := ApiStateFor(t);
      Shown(t);
      var names := GatherNames(api.watches, model.apis[t].watches);
      WriteRequest(t, api, names);
    }

    lemma QueueShown()
      requires Valid()
      ensures requestQueue == model.queue && stream == model.up
    {
    }

    method Pop()
      requires Valid() && model.queue != []
      modifies this`requestQueue, this`model
      ensures Valid() && model == old(model).(queue := old(model).queue[1..]) && requestQueue == model.queue
    {
      hide Linked, WatchesShown, FieldsShown;
      requestQueue := requestQueue[1..];
      model := model.(queue := model.queue[1..]);
    }

    method DrainRequests()
      requires Valid()
      modifies this, states
      ensures Valid() && KeepsStates() && KeepsWatchers()
      ensures model == MuxModel.DrainRequests(old(model))
    {
      hide MuxModel.SendDiscoveryRequest, Valid;
      QueueShown();
      while requestQueue != []
        invariant Valid() && KeepsStates() && KeepsWatchers() && requestQueue == model.queue
        invariant MuxModel.DrainRequests(model) == MuxModel.DrainRequests(old(model))
        decreases |requestQueue|
      {
        SendDiscoveryRequest(requestQueue[0]);
        Pop();
      }
    }

    method Enqueue(item: TypeUrl)
      requires Valid()
      modifies this`requestQueue, this`model
      ensures Valid() && model == old(model).(queue := old(model).queue + [item])
    {
      hide Linked, WatchesShown, FieldsShown;
      requestQueue := requestQueue + [item];
      model := model.(queue := model.queue + [item]);
    }

    lemma PausesShown(t: TypeUrl)
      requires Valid() && t in apiState
      ensures t in model.apis && apiState[t].pauses == model.apis[t].pauses
    {
      Shown(t);
    }

    method SetPending(item: TypeUrl, api: ApiState)
      requires Valid() && item in apiState && api == apiState[item]
      modifies this`model, api
      ensures Valid() && item in old(model.apis)
      ensures model == WithApi(old(model), item, old(model.apis[item]).(pending := true))
    {
      hide Valid, EntriesLinked, Shows;
      Shown(item);
      Assign(item, api, api.Fields().(pending := true));
    }

    method QueueDiscoveryRequest(item: TypeUrl)
      requires Valid()
      modifies this, states
      ensures Valid() && KeepsStates() && KeepsWatchers()
      ensures model == MuxModel.QueueDiscoveryRequest(old(model), item)
    {
      hide MuxModel.DrainRequests, MuxModel.QueueDiscoveryRequest, Valid, EnsureApi, WithApi;
      QueueParts(model, item);
      QueueShown();
      if !stream {
        return;
      }
      var api := ApiStateFor(item);
      PausesShown(item);
      if api.pauses > 0 {
        SetPending(item, api);
      } else {
        Enqueue(item);
        DrainRequests();
      }
    }

    lemma KeysShown()
      requires Valid()
      ensures model.apis.Keys == apiState.Keys
      ensures forall t | t in apiState :: apiState[t] in states
    {
    }

    lemma Owned(t: TypeUrl)
      requires Valid()
      ensures t in apiState <==> t in model.apis
      ensures t in apiState ==> apiState[t] in states && apiState[t].watches in lists
      ensures ScalarsShown()
    {
    }

    method ClearNonceOf(t: TypeUrl)
      requires Valid() && t in apiState && apiState[t] in states
      modifies this`model, apiState[t]
      ensures Valid() && t in old(model.apis)
      ensures var a := old(model.apis[t]);
              model == WithApi(old(model), t, a.(request := a.request.(responseNonce := "")))
    {
      hide Linked, WatchesShown, FieldsShown, EntriesLinked, Shows, ScalarsShown;
      Shown(t);
      var request := apiState[t].request.(responseNonce := "");
      Assign(t, apiState[t], apiState[t].Fields().(request := request));
    }

    method ClearNonce()
      requires Valid()
      modifies this`model, states
      ensures Valid()
      ensures model == old(model).(apis := MuxModel.ClearNonce(old(model).apis))
    {
      hide MuxModel.ClearNonce, Linked, WatchesShown, FieldsShown, EntriesLinked, Shows;
      var todo := apiState.Keys;
      KeysShown();
      while todo != {}
        invariant Valid() && todo <= apiState.Keys
        invariant model == old(model).(apis := model.apis)
        invariant MuxModel.ClearNonce(model.apis) == MuxModel.ClearNonce(old(model).apis)
        invariant forall t | t in model.apis && t !in todo :: model.apis[t].request.responseNonce == ""
        decreases todo
      {
        var t :| t in todo;
        ClearOne(model.apis, t);
        ClearNonceOf(t);
        todo := todo - {t};
      }
      AllClear(model.apis);
    }

    // ---- Public calls ----

    /** Puts a legal event on record. */
    ghost method Record(e: Event)
      requires Valid() && LegalRun(history) && Legal(Run(history), e) && model == Step(Run(history), e)
      modifies this`history
      ensures Valid() && Reached() && history == old(history) + [e]
    {
      hide Linked, WatchesShown, FieldsShown, Step;
      history := history + [e];
      assert history[..|history| - 1] == old(history);
    }

    method QueueAll()
      requires Valid() && model.queue == []
      modifies this, states
      ensures Valid() && KeepsStates() && KeepsWatchers()
      ensures model == QueueSubscriptions(old(model), 0)
    {
      hide MuxModel.QueueDiscoveryRequest, Linked, WatchesShown, FieldsShown;
      var i := 0;
      while i < |subscriptions|
        invariant Valid() && KeepsStates() && KeepsWatchers()
        invariant model.queue == [] && i <= |subscriptions|
        invariant QueueSubscriptions(model, i) == QueueSubscriptions(old(model), 0)
        decreases |Unsubscribed(model)|, |subscriptions| - i
      {
        QueueKeepsMeasure(model, subscriptions[i]);
        QueueDiscoveryRequest(subscriptions[i]);
        i := i + 1;
      }
    }

    method Restart()
      requires Valid()
      modifies this`stream, this`firstStreamRequest, this`requestQueue, this`streams, this`model
      ensures Valid()
      ensures model == old(model).(up := true, first := true, queue := [], epoch := old(model).epoch + 1)
    {
      hide Linked, WatchesShown, FieldsShown;
      stream, firstStreamRequest, requestQueue, streams := true, true, [], streams + 1;
      model := model.(up := true, first := true, queue := [], epoch := model.epoch + 1);
    }

    method OpenStream()
      requires Valid()
      modifies this, states
      ensures Valid() && KeepsStates() && KeepsWatchers()
      ensures model == MuxModel.OnStreamEstablished(old(model), true)
    {
      hide QueueSubscriptions, MuxModel.ClearNonce, Valid;
      ClearNonce();
      Restart();
      QueueAll();
    }

    method LoseStream()
      requires Valid()
      modifies this`stream, this`model
      ensures Valid() && model == old(model).(up := false)
    {
      hide Linked, WatchesShown, FieldsShown;
      stream := false;
      model := model.(up := false);
    }

    /** `ok` says whether the stub handed out a stream. */
    method OnStreamEstablished(ok: bool)
      requires Valid() && Reached()
      modifies this, states
      ensures Valid() && Reached() && KeepsStates() && watchers == old(watchers)
      ensures history == old(history) + [Establish(ok)]
      ensures model == Step(old(model), Establish(ok))
    {
      hide QueueSubscriptions, MuxModel.ClearNonce, Valid, Run, LegalRun;
      if ok {
        OpenStream();
      } else {
        LoseStream();
      }
      Record(Establish(ok));
    }

    method HandleResponse(m: Response, api: ApiState)
      requires Valid() && m.typeUrl in apiState && api == apiState[m.typeUrl] && api in states
      modifies this, states
      ensures Valid() && KeepsStates() && KeepsWatchers()
      ensures model == MuxModel.OnDiscoveryResponse(old(model), m)
    {
      hide MuxModel.QueueDiscoveryRequest, Valid, EntriesLinked;
      var t := m.typeUrl;
      Shown(t);
      var f := api.Fields();
      var request := f.request.(responseNonce := m.nonce);
      if api.watches.entries == [] {
        if m.resources == [] {
          Assign(t, api, f.(request := request.(versionInfo := m.versionInfo)));
          return;
        }
        Assign(t, api, f.(request := request));
      } else {
        Assign(t, api, f.(request := request, previouslyFetchedData := true));
      }
      hide Shows;
      QueueDiscoveryRequest(t);
    }

    method OnDiscoveryResponse(m: Response)
      requires Valid() && Reached()
      modifies this, states
      ensures Valid() && Reached() && KeepsStates() && watchers == old(watchers)
      ensures history == old(history) + [Receive(m)]
      ensures model == Step(old(model), Receive(m))
    {
      hide MuxModel.QueueDiscoveryRequest, Valid, Run, LegalRun;
      Owned(m.typeUrl);
      if m.typeUrl in apiState {
        HandleResponse(m, apiState[m.typeUrl]);
      }
      Record(Receive(m));
    }

    /** Only watcher `w` and the list of its type have changed. */
    twostate predicate OnlyListOf(w: Watcher)
      requires old(Valid()) && w.typeUrl in old(apiState) && w.watches == old(apiState[w.typeUrl]).watches
      reads *
    {
      && apiState == old(apiState) && states == old(states) && lists == old(lists) && created == old(created)
      && unchanged(old(lists) - {w.watches}) && unchanged(old(watchers)) && unchanged(old(states))
      && (forall v | v in old(watchers) && v != w :: v in watchers)
      && (forall v | v in watchers && v != w :: v in old(watchers))
      && (forall x | x in old(w.watches.entries) && x.watcher != w :: x in w.watches.entries)
    }

    /** In the model, only the watch list of `t` has changed. */
    twostate predicate OnlyWatchesOf(t: TypeUrl)
      reads this
    {
      && t in old(model.apis) && t in model.apis
      && model.apis == old(model.apis)[t := old(model.apis[t]).(watches := model.apis[t].watches)]
    }

    twostate lemma OtherLists(w: Watcher)
      requires old(Valid()) && w.typeUrl in old(apiState) && w.watches == old(apiState[w.typeUrl]).watches
      requires OnlyListOf(w)
      ensures forall u | u in apiState && u != w.typeUrl ::
                u in old(model.apis) && EntriesLinked(u) && Shows(apiState[u].watches.entries, old(model.apis)[u].watches)
    {
      forall u | u in apiState && u != w.typeUrl
        ensures u in old(model.apis) && EntriesLinked(u)
        ensures Shows(apiState[u].watches.entries, old(model.apis)[u].watches)
      {
        assert old(EntriesLinked(u)) && old(Shows(apiState[u].watches.entries, model.apis[u].watches));
        assert apiState[u].watches in old(lists) - {w.watches};
      }
    }

    twostate lemma OtherWatchers(w: Watcher)
      requires old(Valid()) && w.typeUrl in old(apiState) && w.watches == old(apiState[w.typeUrl]).watches
      requires OnlyListOf(w)
      ensures forall v | v in watchers && v != w :: v.watches in lists && WatcherLinked(v)
    {
      forall v | v in watchers && v != w
        ensures v.watches in lists && WatcherLinked(v)
      {
        assert old(WatcherLinked(v));
        assert v.watches != w.watches ==> v.watches in old(lists) - {w.watches};
      }
    }

    twostate lemma SameFields(w: Watcher)
      requires old(Valid()) && w.typeUrl in old(apiState) && w.watches == old(apiState[w.typeUrl]).watches
      requires OnlyListOf(w) && OnlyWatchesOf(w.typeUrl)
      ensures FieldsShown(model.apis)
    {
      forall u | u in apiState
        ensures apiState[u].Fields() == model.apis[u].(watches := [])
      {
        assert old(apiState[u].Fields()) == old(model.apis[u]).(watches := []);
      }
    }

    /** What is left to show is the list that changed. */
    twostate lemma Relinked(w: Watcher)
      requires old(Valid()) && w.typeUrl in old(apiState) && w.watches == old(apiState[w.typeUrl]).watches
      requires OnlyListOf(w) && OnlyWatchesOf(w.typeUrl) && ScalarsShown()
      requires EntriesLinked(w.typeUrl) && Shows(w.watches.entries, model.apis[w.typeUrl].watches)
      requires w in watchers ==> WatcherLinked(w)
      requires w in watchers ==> forall v | v in old(watchers) && v != w :: v.id != w.id
      ensures Valid()
    {
      hide Linked, WatchesShown, FieldsShown, OnlyListOf, OnlyWatchesOf;
      SameFields(w);
      RelinkedLinks(w);
      RelinkedWatches(w);
    }

    twostate lemma RelinkedLinks(w: Watcher)
      requires old(Valid()) && w.typeUrl in old(apiState) && w.watches == old(apiState[w.typeUrl]).watches
      requires OnlyListOf(w) && EntriesLinked(w.typeUrl)
      requires w in watchers ==> WatcherLinked(w)
      requires w in watchers ==> forall v | v in old(watchers) && v != w :: v.id != w.id
      ensures Linked()
    {
      OtherLists(w);
      OtherWatchers(w);
      hide EntriesLinked, WatcherLinked, WatchesShown, FieldsShown, Shows, ScalarsShown;
    }

    twostate lemma RelinkedWatches(w: Watcher)
      requires old(Valid()) && w.typeUrl in old(apiState) && w.watches == old(apiState[w.typeUrl]).watches
      requires OnlyListOf(w) && OnlyWatchesOf(w.typeUrl)
      requires EntriesLinked(w.typeUrl) && Shows(w.watches.entries, model.apis[w.typeUrl].watches)
      ensures WatchesShown(model.apis)
    {
      OtherLists(w);
      hide EntriesLinked, Shows, Linked, FieldsShown, ScalarsShown;
    }

    twostate lemma PushedEntries(w: Watcher, new e: Entry)
      requires old(Valid()) && w !in old(watchers)
      requires w.typeUrl in old(apiState) && w.watches == old(apiState[w.typeUrl]).watches
      requires fresh(e) && e.watcher == w && w.iter == e
      requires OnlyListOf(w) && watchers == old(watchers) + {w}
      requires w.watches.entries == [e] + old(w.watches.entries)
      ensures EntriesLinked(w.typeUrl)
    {
      assert old(EntriesLinked(w.typeUrl));
      hide Linked, WatchesShown, FieldsShown, ScalarsShown;
    }

    twostate lemma PushedShows(w: Watcher, new e: Entry)
      requires old(Valid()) && w.typeUrl in old(apiState) && w.watches == old(apiState[w.typeUrl]).watches
      requires e.watcher == w && OnlyListOf(w)
      requires w.watches.entries == [e] + old(w.watches.entries)
      requires model == PushWatch(old(model), w.typeUrl, Watch(w.id, w.resources))
      ensures OnlyWatchesOf(w.typeUrl) && Shows(w.watches.entries, model.apis[w.typeUrl].watches)
    {
      var t := w.typeUrl;
      var es, ws := old(w.watches.entries), old(model.apis[t]).watches;
      assert old(EntriesLinked(t)) && old(Shows(es, ws));
      hide Linked, WatchesShown, ScalarsShown;
      forall i | 0 <= i < |ws|
        ensures ws[i] == Watch(es[i].watcher.id, es[i].watcher.resources)
      {
        assert es[i].watcher in old(watchers);
      }
      hide EntriesLinked, FieldsShown;
      assert w.watches.entries == [e] + es && model.apis[t].watches == [Watch(w.id, w.resources)] + ws;
    }

    /** Linking one more watcher at the front of its list. */
    twostate lemma Pushed(w: Watcher, new e: Entry)
      requires old(Valid()) && w !in old(watchers) && w.parent == this
      requires w.typeUrl in old(apiState) && w.watches == old(apiState[w.typeUrl]).watches
      requires w.id < created && forall v | v in old(watchers) :: v.id != w.id
      requires fresh(e) && e.watcher == w && w.iter == e
      requires OnlyListOf(w) && watchers == old(watchers) + {w}
      requires w.watches.entries == [e] + old(w.watches.entries)
      requires model == PushWatch(old(model), w.typeUrl, Watch(w.id, w.resources)) && ScalarsShown()
      ensures Valid()
    {
      hide Linked, WatchesShown, FieldsShown;
      PushedEntries(w, e);
      PushedShows(w, e);
      hide EntriesLinked, Shows, OnlyListOf, OnlyWatchesOf;
      Relinked(w);
    }

    lemma LinkOf(w: Watcher)
      requires Valid() && w in watchers
      ensures WatcherLinked(w) && w.watches in lists
      ensures forall v | v in watchers && v != w :: v.id != w.id
    {
    }

    /** A watcher's iterator stands where the model finds the watcher. */
    lemma PositionOf(w: Watcher, i: nat)
      requires Valid() && w in watchers && w.watches in lists
      requires i < |w.watches.entries| && w.watches.entries[i] == w.iter
      ensures w.typeUrl in apiState && w.watches == apiState[w.typeUrl].watches && w.typeUrl in model.apis
      ensures IndexOf(model.apis[w.typeUrl].watches, w.id) == i
      ensures Watches(ApiOf(model, w.typeUrl).watches, w.id)
      ensures ResourcesOf(ApiOf(model, w.typeUrl).watches, w.id) == w.resources
    {
      var t := w.typeUrl;
      assert WatcherLinked(w) && EntriesLinked(t);
      assert Shows(apiState[t].watches.entries, model.apis[t].watches);
      assert model.apis[t].watches[i].id == w.id;
    }

    twostate lemma ErasedEntries(w: Watcher, new i: int)
      requires old(Valid()) && w in old(watchers)
      requires w.typeUrl in old(apiState) && w.watches == old(apiState[w.typeUrl]).watches
      requires 0 <= i < |old(w.watches.entries)| && old(w.watches.entries)[i] == old(w.iter)
      requires OnlyListOf(w) && watchers == old(watchers) - {w}
      requires w.watches.entries == old(w.watches.entries)[..i] + old(w.watches.entries)[i + 1..]
      ensures EntriesLinked(w.typeUrl)
    {
      var es, es' := old(w.watches.entries), w.watches.entries;
      assert old(EntriesLinked(w.typeUrl));
      hide Linked, WatchesShown, FieldsShown, ScalarsShown;
      RemovedEntry(es, i, es');
      forall j | 0 <= j < |es'|
        ensures es'[j].watcher in watchers && es'[j].watcher.iter == es'[j] && es'[j].watcher.typeUrl == w.typeUrl
      {
        assert es'[j] in es && es'[j] != old(w.iter);
        assert es'[j].watcher in old(watchers) && old(es'[j].watcher.iter) == es'[j];
      }
    }

    /** Unlinking a watcher through its iterator. */
    twostate lemma Erased(w: Watcher, new i: int)
      requires old(Valid()) && w in old(watchers)
      requires w.typeUrl in old(apiState) && w.watches == old(apiState[w.typeUrl]).watches
      requires 0 <= i < |old(w.watches.entries)| && old(w.watches.entries)[i] == old(w.iter)
      requires w.typeUrl in old(model.apis) && IndexOf(old(model.apis[w.typeUrl]).watches, w.id) == i
      requires OnlyListOf(w) && watchers == old(watchers) - {w}
      requires w.watches.entries == old(w.watches.entries)[..i] + old(w.watches.entries)[i + 1..]
      requires model == EraseWatch(old(model), w.typeUrl, w.id) && ScalarsShown()
      ensures Valid()
    {
      var t := w.typeUrl;
      ErasedEntries(w, i);
      hide EntriesLinked;
      var es, ws := old(w.watches.entries), old(model.apis[t]).watches;
      assert old(Shows(es, ws));
      RemovedAt(es, ws, i, w.watches.entries, model.apis[t].watches);
      hide Linked, WatchesShown, FieldsShown, IndexOf, Erase;
      assert Shows(w.watches.entries, model.apis[t].watches);
      Relinked(w);
    }

    method Shutdown()
      requires Valid() && Reached() && stream
      modifies this
      ensures Valid() && Reached() && KeepsStates() && watchers == old(watchers)
      ensures history == old(history) + [MuxModel.Shutdown]
      ensures model == Step(old(model), MuxModel.Shutdown)
    {
      hide Linked, WatchesShown, FieldsShown, Run, LegalRun;
      isShutdown := true;
      model := model.(shut := true);
      Record(MuxModel.Shutdown);
    }

    method SubscribeType(t: TypeUrl, api: ApiState)
      requires Valid() && t in apiState && api == apiState[t]
      modifies this`model, this`subscriptions, api
      ensures Valid()
      ensures model == Subscribe(old(model), t)
    {
      hide Linked, WatchesShown, FieldsShown, EntriesLinked, Shows;
      Shown(t);
      if !api.subscribed {
        Assign(t, api, api.Fields().(request := api.request.(typeUrl := t), subscribed := true));
        subscriptions := subscriptions + [t];
        model := model.(subs := model.subs + [t]);
      }
    }

    /** No live watcher has the next identity. */
    lemma NextIsNew(t: TypeUrl)
      requires Valid()
      ensures !Watches(ApiOf(model, t).watches, created)
      ensures forall v | v in watchers :: v.id < created
    {
      if t in apiState {
        Shown(t);
        forall i | 0 <= i < |model.apis[t].watches|
          ensures model.apis[t].watches[i].id < created
        {
          assert WatcherLinked(apiState[t].watches.entries[i].watcher);
        }
      }
    }

    lemma JoinsShown(t: TypeUrl)
      requires Valid()
      ensures subscriptions == model.subs
      ensures ApiOf(model, t).subscribed <==> t in apiState && apiState[t].subscribed
    {
      if t in apiState {
        Shown(t);
      }
    }

    ghost method TakeId()
      requires Valid()
      modifies this`created
      ensures Valid() && created == old(created) + 1
    {
      hide WatchesShown, FieldsShown;
      created := created + 1;
      forall w | w in watchers
        ensures WatcherLinked(w)
      {
        assert old(WatcherLinked(w));
      }
    }

    method LinkNew(t: TypeUrl, resources: set<Name>, ghost id: nat) returns (watch: Watcher)
      requires Valid() && id < created && forall v | v in watchers :: v.id != id
      modifies this, states, lists
      ensures Valid() && KeepsStates() && history == old(history)
      ensures fresh(watch) && watchers == old(watchers) + {watch} && watch.parent == this
      ensures watch.typeUrl == t && watch.resources == resources && watch.id == id
      ensures model == DoAddWatch(old(model), t, id, resources)
    {
      hide MuxModel.QueueDiscoveryRequest, Valid, PushWatch, Subscribe;
      watch := new Watcher(resources, t, this, id);
      SubscribeType(t, apiState[t]);
      QueueDiscoveryRequest(t);
    }

    method AddWatch(t: TypeUrl, resources: set<Name>) returns (watch: Watcher)
      requires Valid() && Reached()
      modifies this, states, lists
      ensures Valid() && Reached() && KeepsStates()
      ensures fresh(watch) && watchers == old(watchers) + {watch} && watch.parent == this
      ensures watch.typeUrl == t && watch.resources == resources
      ensures history == old(history) + [MuxModel.AddWatch(t, watch.id, resources)]
      ensures model == Step(old(model), MuxModel.AddWatch(t, watch.id, resources))
      ensures subscriptions == old(subscriptions) + (if t in old(apiState) && old(apiState[t].subscribed) then [] else [t])
    {
      hide DoAddWatch, Valid, Run, LegalRun, ApiOf, Watches;
      NextIsNew(t);
      JoinsShown(t);
      ghost var id := created;
      TakeId();
      watch := LinkNew(t, resources, id);
      Record(MuxModel.AddWatch(t, id, resources));
      JoinsShown(t);
      MuxInvariant.Reachable(old(history));
      MuxWire.SubsStep(old(model), MuxModel.AddWatch(t, id, resources));
    }
  }

  class Watcher {
    var resources: set<Name>
    const typeUrl: TypeUrl
    const parent: AdsClient
    const watches: WatchList
    var iter: Entry?
    ghost const id: nat

    constructor (resources: set<Name>, typeUrl: TypeUrl, parent: AdsClient, ghost id: nat)
      requires parent.Valid() && id < parent.created && forall v | v in parent.watchers :: v.id != id
      modifies parent, parent.lists
      ensures parent.Valid() && parent.KeepsStates() && parent.history == old(parent.history)
      ensures parent.watchers == old(parent.watchers) + {this} && parent.created == old(parent.created)
      ensures this.parent == parent && this.typeUrl == typeUrl && this.id == id && this.resources == resources
      ensures typeUrl in parent.apiState && parent.apiState[typeUrl] in parent.states
      ensures parent.model == PushWatch(old(parent.model), typeUrl, Watch(id, resources))
    {
      hide AdsClient.Valid;
      var api := parent.ApiStateFor(typeUrl);
      this.typeUrl, this.parent, this.id := typeUrl, parent, id;
      this.watches := api.watches;
      this.resources, this.iter := {}, null;
      new;
      UpdateResources(resources);
    }

    /** This watcher is alive but linked nowhere. */
    ghost predicate Loose()
      reads this, parent, parent.states, parent.lists, parent.watchers
    {
      && parent.Valid()
      && this !in parent.watchers
      && typeUrl in parent.apiState
      && watches == parent.apiState[typeUrl].watches
      && watches in parent.lists
      && id < parent.created
      && forall v | v in parent.watchers :: v.id != id
    }

    method UpdateResources(resources: set<Name>)
      requires Loose()
      modifies this`resources, this`iter, watches, parent`watchers, parent`model
      ensures parent.Valid() && parent.watchers == old(parent.watchers) + {this}
      ensures this.resources == resources
      ensures parent.model == PushWatch(old(parent.model), typeUrl, Watch(id, resources))
    {
      hide AdsClient.Linked, AdsClient.WatchesShown, AdsClient.FieldsShown;
      this.resources := resources;
      iter := new Entry(this);
      watches.entries := [iter] + watches.entries;
      parent.watchers := parent.watchers + {this};
      parent.model := PushWatch(parent.model, typeUrl, Watch(id, resources));
      parent.Pushed(this, iter);
    }

    /** `watches_.erase(iter_)`. */
    method Unlink()
      requires parent.Valid() && this in parent.watchers
      modifies watches, parent`watchers, parent`model
      ensures Loose() && parent.watchers == old(parent.watchers) - {this}
      ensures parent.model == EraseWatch(old(parent.model), typeUrl, id)
      ensures Watches(ApiOf(old(parent.model), typeUrl).watches, id)
      ensures ResourcesOf(ApiOf(old(parent.model), typeUrl).watches, id) == resources
    {
      hide AdsClient.Linked, AdsClient.WatchesShown, AdsClient.FieldsShown, Watches, ResourcesOf, IndexOf, Erase;
      parent.LinkOf(this);
      var i :| 0 <= i < |watches.entries| && watches.entries[i] == iter;
      parent.PositionOf(this, i);
      watches.entries := watches.entries[..i] + watches.entries[i + 1..];
      parent.watchers := parent.watchers - {this};
      parent.model := EraseWatch(parent.model, typeUrl, id);
      parent.Erased(this, i);
    }

    /** What the destructor and `update` begin with: unlink, and tell the server if it matters. */
    method Withdraw()
      requires parent.Valid() && this in parent.watchers
      modifies watches, parent, parent.states
      ensures Loose() && parent.KeepsStates() && parent.history == old(parent.history)
      ensures parent.watchers == old(parent.watchers) - {this}
      ensures Watches(ApiOf(old(parent.model), typeUrl).watches, id)
      ensures parent.model == DoDestroy(old(parent.model), typeUrl, id)
    {
      hide QueueDiscoveryRequest, AdsClient.Linked, AdsClient.WatchesShown, AdsClient.FieldsShown;
      hide EraseWatch, ResourcesOf, ApiOf, Watches;
      Unlink();
      if resources != {} {
        parent.QueueDiscoveryRequest(typeUrl);
      }
    }

    /** The destructor. */
    method Destroy()
      requires parent.Valid() && parent.Reached() && this in parent.watchers
      modifies watches, parent, parent.states
      ensures parent.Valid() && parent.Reached() && parent.KeepsStates()
      ensures parent.watchers == old(parent.watchers) - {this}
      ensures parent.history == old(parent.history) + [MuxModel.Destroy(typeUrl, id)]
      ensures parent.model == Step(old(parent.model), MuxModel.Destroy(typeUrl, id))
    {
      hide DoDestroy, AdsClient.Valid, Run, LegalRun, ApiOf, Watches;
      Withdraw();
      parent.Record(MuxModel.Destroy(typeUrl, id));
    }

    /** What `update` ends with: link at the front, and tell the server. */
    method Rejoin(resources: set<Name>)
      requires Loose()
      modifies this`resources, this`iter, watches, parent, parent.states
      ensures parent.Valid() && parent.KeepsStates() && parent.history == old(parent.history)
      ensures parent.watchers == old(parent.watchers) + {this} && this.resources == resources
      ensures parent.model == QueueDiscoveryRequest(PushWatch(old(parent.model), typeUrl, Watch(id, resources)), typeUrl)
    {
      hide QueueDiscoveryRequest, AdsClient.Valid, PushWatch;
      UpdateResources(resources);
      parent.QueueDiscoveryRequest(typeUrl);
    }

    method Change(resources: set<Name>)
      requires parent.Valid() && this in parent.watchers
      modifies this, watches, parent, parent.states
      ensures parent.Valid() && parent.KeepsStates() && parent.history == old(parent.history)
      ensures parent.watchers == old(parent.watchers) && this.resources == resources
      ensures Watches(ApiOf(old(parent.model), typeUrl).watches, id)
      ensures parent.model == DoUpdate(old(parent.model), typeUrl, id, resources)
    {
      hide QueueDiscoveryRequest, AdsClient.Valid, DoDestroy, PushWatch, ApiOf, Watches;
      Withdraw();
      Rejoin(resources);
    }

    method Update(resources: set<Name>)
      requires parent.Valid() && parent.Reached() && this in parent.watchers
      modifies this, watches, parent, parent.states
      ensures parent.Valid() && parent.Reached() && parent.KeepsStates()
      ensures parent.watchers == old(parent.watchers) && this.resources == resources
      ensures parent.history == old(parent.history) + [MuxModel.Update(typeUrl, id, resources)]
      ensures parent.model == Step(old(parent.model), MuxModel.Update(typeUrl, id, resources))
    {
      hide DoUpdate, AdsClient.Valid, Run, LegalRun, ApiOf, Watches;
      Change(resources);
      parent.Record(MuxModel.Update(typeUrl, id, resources));
    }
  }
}
