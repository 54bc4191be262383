/**
  The anylink `AdsManager`: subscribe, receive and acknowledge, one type after another, each
  operation waited for on a completion queue before the next is begun.
 */
module AdsManagerModel {
  import opened ResourceNames
  import opened MuxModel

  // ---- Acknowledging on one request ----

  datatype Answer = Ack(response: Response) | Nack(response: Response)

  /** `sendACK` and `sendNACK`: how they change the request before writing it. */
  function Answered(request: Request, a: Answer): Request {
    var noted := request.(responseNonce := a.response.nonce);
    if a.Ack? then noted.(versionInfo := a.response.versionInfo) else noted
  }

  function RequestAfter(request: Request, answers: seq<Answer>): Request {
    if answers == [] then request
    else Answered(RequestAfter(request, answers[..|answers| - 1]), answers[|answers| - 1])
  }

  /** The writes made by answering again and again on the same request. */
  function AnswerWrites(request: Request, answers: seq<Answer>): (ws: seq<Request>)
    ensures |ws| == |answers|
  {
    if answers == [] then []
    else AnswerWrites(request, answers[..|answers| - 1]) + [RequestAfter(request, answers)]
  }

  /** The position of the last ACK; -1 if there is none. */
  function LastAck(answers: seq<Answer>): (k: int)
    ensures -1 <= k < |answers|
    ensures k >= 0 ==> answers[k].Ack?
    ensures forall j | k < j < |answers| :: answers[j].Nack?
  {
    if answers == [] then -1
    else if answers[|answers| - 1].Ack? then |answers| - 1
    else LastAck(answers[..|answers| - 1])
  }

  lemma {:induction false} RequestAfterMeaning(request: Request, answers: seq<Answer>)
    requires answers != []
    ensures var k := LastAck(answers);
            RequestAfter(request, answers) ==
            request.(
              responseNonce := answers[|answers| - 1].response.nonce,
              versionInfo := if k < 0 then request.versionInfo else answers[k].response.versionInfo)
  {
    if |answers| > 1 {
      RequestAfterMeaning(request, answers[..|answers| - 1]);
    }
  }

  /**
    The `i`-th answer on `request`: the nonce of the response it answers, and the version of the
    last response acknowledged so far, the initial version if there is none.
   */
  function AnswerAt(request: Request, answers: seq<Answer>, i: nat): Request
    requires i < |answers|
  {
    var k := LastAck(answers[..i + 1]);
    request.(
      responseNonce := answers[i].response.nonce,
      versionInfo := if k < 0 then request.versionInfo else answers[k].response.versionInfo)
  }

  /** The history of answers, write by write; type, names and node never change. */
  lemma {:induction false} AnswerHistory(request: Request, answers: seq<Answer>, i: nat)
    requires i < |answers|
    ensures AnswerWrites(request, answers)[i] == AnswerAt(request, answers, i)
    ensures var w, k := AnswerWrites(request, answers)[i], LastAck(answers[..i + 1]);
            && w.responseNonce == answers[i].response.nonce
            && w.versionInfo == (if k < 0 then request.versionInfo else answers[k].response.versionInfo)
            && w.typeUrl == request.typeUrl && w.resourceNames == request.resourceNames && w.node == request.node
  {
    if i == |answers| - 1 {
      assert answers[..i + 1] == answers;
      RequestAfterMeaning(request, answers);
    } else {
      var front := answers[..|answers| - 1];
      AnswerHistory(request, front, i);
      assert front[..i + 1] == answers[..i + 1];
    }
  }

  lemma NoAnswers(request: Request, answers: seq<Answer>)
    requires answers == []
    ensures RequestAfter(request, answers) == request && AnswerWrites(request, answers) == []
  {
  }

  lemma OneMoreAnswer(request: Request, answers: seq<Answer>, i: nat)
    requires i < |answers|
    ensures var now := RequestAfter(request, answers[..i + 1]);
            && now == Answered(RequestAfter(request, answers[..i]), answers[i])
            && AnswerWrites(request, answers[..i + 1]) == AnswerWrites(request, answers[..i]) + [now]
  {
    assert answers[..i + 1][..i] == answers[..i];
  }

  lemma AnswersAt(before: seq<Request>, request: Request, answers: seq<Answer>)
    ensures forall i | 0 <= i < |answers| ::
              (before + AnswerWrites(request, answers))[|before| + i] == AnswerAt(request, answers, i)
  {
    hide AnswerWrites, AnswerAt;
    forall i | 0 <= i < |answers|
      ensures (before + AnswerWrites(request, answers))[|before| + i] == AnswerAt(request, answers, i)
    {
      AnswerHistory(request, answers, i);
    }
  }

  // ---- The handshake ----

  /** A subclass of `Subscription`: its type and the names it asks for. */
  datatype Subscription = Subscription(typeUrl: TypeUrl, resourceNames: seq<Name>)

  /** What a failed read leaves in the response. */
  const NO_RESPONSE := Response("", "", "", [])

  function SubscribeRequest(sub: Subscription, node: Node): Request {
    Request(sub.typeUrl, "", "", sub.resourceNames, Some(node))
  }

  function ResponseOf(read: Option<Response>): Response {
    if read.Some? then read.value else NO_RESPONSE
  }

  /** A response handed to a subscription. */
  datatype Delivery = Delivery(subscription: Subscription, response: Response)

  class AdsManager {
    const node: Node
    var subscribeMap: map<TypeUrl, Subscription>
    /** Operations given to the completion queue and not yet taken from it. */
    var pending: nat
    /** The requests written to the server, and the responses handed out, in order. */
    var written: seq<Request>
    var delivered: seq<Delivery>

    /** Every subscription is registered under its own type. */
    ghost predicate Valid()
      reads this
    {
      && pending == 0
      && forall t | t in subscribeMap :: subscribeMap[t].typeUrl == t
    }

    constructor (node: Node)
      ensures Valid() && this.node == node && subscribeMap == map[] && written == [] && delivered == []
    {
      this.node := node;
      subscribeMap, pending, written, delivered := map[], 0, [], [];
    }

    /** `insert` does not replace a subscription that is there. */
    method AddSubscription(sub: Subscription)
      requires Valid()
      modifies this`subscribeMap
      ensures Valid()
      ensures sub.typeUrl in old(subscribeMap) ==> subscribeMap == old(subscribeMap)
      ensures sub.typeUrl !in old(subscribeMap) ==> subscribeMap == old(subscribeMap)[sub.typeUrl := sub]
    {
      if sub.typeUrl !in subscribeMap {
        subscribeMap := subscribeMap[sub.typeUrl := sub];
      }
    }

    /** Gives an operation to the completion queue; nothing else may be in it. */
    method Begin()
      requires pending == 0
      modifies this`pending
      ensures pending == 1
    {
      pending := 1;
    }

    /** `cq_.Next`. */
    method Next()
      requires pending == 1
      modifies this`pending
      ensures pending == 0
    {
      pending := 0;
    }

    method Write(request: Request)
      requires Valid()
      modifies this`pending, this`written
      ensures Valid() && written == old(written) + [request]
    {
      Begin();
      written := written + [request];
      Next();
    }

    method InitSubscribe(sub: Subscription) returns (request: Request)
      requires Valid()
      modifies this`pending, this`written
      ensures Valid() && request == SubscribeRequest(sub, node) && written == old(written) + [request]
      ensures request.typeUrl == sub.typeUrl && request.resourceNames == sub.resourceNames && request.node == Some(node)
      ensures request.versionInfo == "" && request.responseNonce == ""
    {
      request := Request(sub.typeUrl, "", "", sub.resourceNames, Some(node));
      Write(request);
    }

    /**
      `read` is what the read completes with, if it succeeds. `ok` is false when the type of
      the response is not registered: the source then calls through a null pointer.
     */
    method ReceiveADS(read: Option<Response>) returns (response: Response, ok: bool)
      requires Valid()
      modifies this`pending, this`delivered
      ensures Valid() && response == ResponseOf(read)
      ensures read.Some? ==> response == read.value
      ensures read.None? ==> response.typeUrl == "" && response.versionInfo == "" && response.nonce == "" && response.resources == []
      ensures ok <==> read.Some? ==> read.value.typeUrl in subscribeMap
      ensures read.Some? && ok ==> delivered == old(delivered) + [Delivery(subscribeMap[read.value.typeUrl], read.value)]
      ensures read.None? || !ok ==> delivered == old(delivered)
    {
      Begin();
      Next();
      response, ok := NO_RESPONSE, true;
      if read.Some? {
        response := read.value;
        if response.typeUrl in subscribeMap {
          delivered := delivered + [Delivery(subscribeMap[response.typeUrl], response)];
        } else {
          ok := false;
        }
      }
    }

    method SendACK(request: Request, response: Response) returns (request': Request)
      requires Valid()
      modifies this`pending, this`written
      ensures Valid() && request' == Answered(request, Ack(response)) && written == old(written) + [request']
      ensures request' == request.(versionInfo := response.versionInfo, responseNonce := response.nonce)
    {
      request' := request.(versionInfo := response.versionInfo);
      request' := request'.(responseNonce := response.nonce);
      Write(request');
    }

    method SendNACK(request: Request, response: Response) returns (request': Request)
      requires Valid()
      modifies this`pending, this`written
      ensures Valid() && request' == Answered(request, Nack(response)) && written == old(written) + [request']
      ensures request' == request.(responseNonce := response.nonce)
    {
      request' := request.(responseNonce := response.nonce);
      Write(request');
    }

    method Answer(request: Request, a: Answer) returns (request': Request)
      requires Valid()
      modifies this`pending, this`written
      ensures Valid() && request' == Answered(request, a) && written == old(written) + [request']
    {
      match a
      case Ack(response) => request' := SendACK(request, response);
      case Nack(response) => request' := SendNACK(request, response);
    }

    /** Answers again and again on the same request, as each response is taken or refused. */
    method AnswerAll(request: Request, answers: seq<Answer>) returns (request': Request)
      requires Valid()
      modifies this`pending, this`written
      ensures Valid() && request' == RequestAfter(request, answers)
      ensures written == old(written) + AnswerWrites(request, answers)
      ensures forall i | 0 <= i < |answers| :: written[|old(written)| + i] == AnswerAt(request, answers, i)
    {
      hide *;
      request' := request;
      NoAnswers(request, answers[..0]);
      for i := 0 to |answers|
        invariant Valid() && request' == RequestAfter(request, answers[..i])
        invariant written == old(written) + AnswerWrites(request, answers[..i])
      {
        OneMoreAnswer(request, answers, i);
        request' := Answer(request', answers[i]);
      }
      assert answers[..|answers|] == answers;
      AnswersAt(old(written), request, answers);
    }

    /** One round of the handshake; `ok` is false where the source goes through a null pointer. */
    method Round(url: TypeUrl, arrival: Option<Response>) returns (ok: bool)
      requires Valid()
      modifies this`pending, this`written, this`delivered
      ensures Valid() && (ok <==> Registered(subscribeMap, url, arrival))
      ensures url !in subscribeMap ==> written == old(written)
      ensures url in subscribeMap ==>
                var subscribe := SubscribeRequest(subscribeMap[url], node);
                written == old(written) + [subscribe] + (if ok then [Answered(subscribe, Ack(ResponseOf(arrival)))] else [])
      ensures ok && arrival.Some? ==>
                && arrival.value.typeUrl in subscribeMap
                && delivered == old(delivered) + [Delivery(subscribeMap[arrival.value.typeUrl], arrival.value)]
      ensures ok && arrival.None? ==> delivered == old(delivered)
      ensures !ok ==> delivered == old(delivered)
    {
      if url !in subscribeMap {
        return false;
      }
      var request := InitSubscribe(subscribeMap[url]);
      var response;
      response, ok := ReceiveADS(arrival);
      if ok {
        var request' := SendACK(request, response);
      }
    }

    /**
      The handshake over `urls`, with `arrivals[i]` the outcome of the `i`-th read. `index`
      counts the rounds that got through: all of them, or those before the first that needs a
      type that is not registered.
     */
    method StartClient(urls: seq<TypeUrl>, arrivals: seq<Option<Response>>) returns (index: nat)
      requires Valid() && |arrivals| == |urls|
      modifies this`pending, this`written, this`delivered
      ensures Valid() && index <= |urls|
      ensures forall i | 0 <= i < index :: Registered(subscribeMap, urls[i], arrivals[i])
      ensures index < |urls| ==> !Registered(subscribeMap, urls[index], arrivals[index])
      ensures written == old(written) + Rounds(subscribeMap, node, urls[..index], arrivals[..index])
                + (if index < |urls| && urls[index] in subscribeMap then [SubscribeRequest(subscribeMap[urls[index]], node)] else [])
      ensures delivered == old(delivered) + Deliveries(subscribeMap, arrivals[..index])
      ensures |written| >= |old(written)| + 2 * index
      ensures forall i | 0 <= i < index :: IsRound(subscribeMap, node, urls[i], arrivals[i], written, |old(written)| + 2 * i)
    {
      hide Rounds, Deliveries, SubscribeRequest, Answered;
      index := 0;
      NoRounds(subscribeMap, node, urls[..0], arrivals[..0]);
      while index < |urls|
        invariant Valid() && index <= |urls|
        invariant forall i | 0 <= i < index :: Registered(subscribeMap, urls[i], arrivals[i])
        invariant written == old(written) + Rounds(subscribeMap, node, urls[..index], arrivals[..index])
        invariant delivered == old(delivered) + Deliveries(subscribeMap, arrivals[..index])
      {
        var ok := Round(urls[index], arrivals[index]);
        if !ok {
          break;
        }
        OneMoreRound(subscribeMap, node, urls, arrivals, index);
        index := index + 1;
      }
      RoundsAfter(subscribeMap, node, urls[..index], arrivals[..index], old(written), written);
      assert forall i | 0 <= i < index :: urls[..index][i] == urls[i] && arrivals[..index][i] == arrivals[i];
    }
  }

  /** A round neither looks up an unregistered URL nor receives an unregistered type. */
  predicate Registered(m: map<TypeUrl, Subscription>, url: TypeUrl, arrival: Option<Response>) {
    url in m && (arrival.Some? ==> arrival.value.typeUrl in m)
  }

  /** The writes of whole rounds. */
  function Rounds(m: map<TypeUrl, Subscription>, node: Node, urls: seq<TypeUrl>, arrivals: seq<Option<Response>>): seq<Request>
    requires |arrivals| == |urls|
  {
    if urls == [] then
      []
    else
      var n := |urls| - 1;
      Rounds(m, node, urls[..n], arrivals[..n]) +
      (if urls[n] in m then
         [SubscribeRequest(m[urls[n]], node), Answered(SubscribeRequest(m[urls[n]], node), Ack(ResponseOf(arrivals[n])))]
       else [])
  }

  lemma NoRounds(m: map<TypeUrl, Subscription>, node: Node, urls: seq<TypeUrl>, arrivals: seq<Option<Response>>)
    requires urls == [] && arrivals == []
    ensures Rounds(m, node, urls, arrivals) == [] && Deliveries(m, arrivals) == []
  {
  }

  lemma OneMoreRound(m: map<TypeUrl, Subscription>, node: Node, urls: seq<TypeUrl>, arrivals: seq<Option<Response>>, n: nat)
    requires |arrivals| == |urls| && n < |urls| && Registered(m, urls[n], arrivals[n])
    ensures var subscribe := SubscribeRequest(m[urls[n]], node);
            Rounds(m, node, urls[..n + 1], arrivals[..n + 1]) ==
            Rounds(m, node, urls[..n], arrivals[..n]) + [subscribe] + [Answered(subscribe, Ack(ResponseOf(arrivals[n])))]
    ensures Deliveries(m, arrivals[..n + 1]) ==
            Deliveries(m, arrivals[..n]) +
            (if arrivals[n].Some? then [Delivery(m[arrivals[n].value.typeUrl], arrivals[n].value)] else [])
  {
    assert urls[..n + 1][..n] == urls[..n] && arrivals[..n + 1][..n] == arrivals[..n];
  }

  /**
    The writes of the handshake, round by round: the subscription to the `i`-th URL, then the
    same request echoing version and nonce of the `i`-th response.
   */
  lemma {:induction false} HandshakeTrace(m: map<TypeUrl, Subscription>, node: Node, urls: seq<TypeUrl>,
                                          arrivals: seq<Option<Response>>, i: nat)
    requires |arrivals| == |urls| && i < |urls|
    requires forall j | 0 <= j < |urls| :: urls[j] in m && m[urls[j]].typeUrl == urls[j]
    ensures var ws := Rounds(m, node, urls, arrivals);
            && |ws| == 2 * |urls|
            && ws[2 * i] == Request(urls[i], "", "", m[urls[i]].resourceNames, Some(node))
            && ws[2 * i + 1] == ws[2 * i].(versionInfo := if arrivals[i].Some? then arrivals[i].value.versionInfo else "",
                                           responseNonce := if arrivals[i].Some? then arrivals[i].value.nonce else "")
  {
    var n := |urls| - 1;
    if n > 0 {
      HandshakeTrace(m, node, urls[..n], arrivals[..n], if i < n then i else 0);
    }
  }

  /** At position `n`, the subscription to `url`, and then its acknowledgement echoing `arrival`. */
  predicate IsRound(m: map<TypeUrl, Subscription>, node: Node, url: TypeUrl, arrival: Option<Response>, ws: seq<Request>, n: nat) {
    && url in m && n + 1 < |ws|
    && ws[n] == Request(url, "", "", m[url].resourceNames, Some(node))
    && ws[n + 1] == ws[n].(versionInfo := if arrival.Some? then arrival.value.versionInfo else "",
                           responseNonce := if arrival.Some? then arrival.value.nonce else "")
  }

  lemma RoundsAfter(m: map<TypeUrl, Subscription>, node: Node, urls: seq<TypeUrl>, arrivals: seq<Option<Response>>,
                    before: seq<Request>, after: seq<Request>)
    requires |arrivals| == |urls| && before + Rounds(m, node, urls, arrivals) <= after
    requires forall j | 0 <= j < |urls| :: urls[j] in m && m[urls[j]].typeUrl == urls[j]
    ensures |after| >= |before| + 2 * |urls|
    ensures forall i | 0 <= i < |urls| :: IsRound(m, node, urls[i], arrivals[i], after, |before| + 2 * i)
  {
    hide Rounds;
    var ws := Rounds(m, node, urls, arrivals);
    if urls != [] {
      HandshakeTrace(m, node, urls, arrivals, 0);
    } else {
      assert |before + ws| >= |before|;
    }
    forall i | 0 <= i < |urls|
      ensures IsRound(m, node, urls[i], arrivals[i], after, |before| + 2 * i)
    {
      HandshakeTrace(m, node, urls, arrivals, i);
      assert after[|before| + 2 * i] == (before + ws)[|before| + 2 * i] == ws[2 * i];
      assert after[|before| + 2 * i + 1] == (before + ws)[|before| + 2 * i + 1] == ws[2 * i + 1];
    }
  }

  /** The successful reads, each with the subscription registered for its type. */
  function Deliveries(m: map<TypeUrl, Subscription>, arrivals: seq<Option<Response>>): seq<Delivery> {
    if arrivals == [] then
      []
    else
      var front, x := Deliveries(m, arrivals[..|arrivals| - 1]), arrivals[|arrivals| - 1];
      if x.Some? && x.value.typeUrl in m then front + [Delivery(m[x.value.typeUrl], x.value)] else front
  }

  /** Whatever is delivered goes to the subscription of the response's own type, as it was read. */
  lemma {:induction false} DeliveredToOwnType(m: map<TypeUrl, Subscription>, arrivals: seq<Option<Response>>)
    requires forall t | t in m :: m[t].typeUrl == t
    requires forall i | 0 <= i < |arrivals| :: arrivals[i].Some? ==> arrivals[i].value.typeUrl in m
    ensures forall d | d in Deliveries(m, arrivals) ::
              d.subscription.typeUrl == d.response.typeUrl && Some(d.response) in arrivals
    ensures forall i | 0 <= i < |arrivals| :: arrivals[i].Some? ==>
              Delivery(m[arrivals[i].value.typeUrl], arrivals[i].value) in Deliveries(m, arrivals)
  {
    if arrivals != [] {
      var n := |arrivals| - 1;
      DeliveredToOwnType(m, arrivals[..n]);
      assert arrivals == arrivals[..n] + [arrivals[n]];
    }
  }

  /** How many reads succeeded. */
  function Successes(arrivals: seq<Option<Response>>): nat {
    if arrivals == [] then 0
    else Successes(arrivals[..|arrivals| - 1]) + (if arrivals[|arrivals| - 1].Some? then 1 else 0)
  }

  /** The deliveries come in the order of the reads. */
  lemma {:induction false} DeliveredInOrder(m: map<TypeUrl, Subscription>, arrivals: seq<Option<Response>>, i: nat)
    requires forall j | 0 <= j < |arrivals| :: arrivals[j].Some? ==> arrivals[j].value.typeUrl in m
    requires i < |arrivals| && arrivals[i].Some?
    ensures var n, ds := Successes(arrivals[..i]), Deliveries(m, arrivals);
            n < |ds| == Successes(arrivals) && ds[n] == Delivery(m[arrivals[i].value.typeUrl], arrivals[i].value)
  {
    var front := arrivals[..|arrivals| - 1];
    DeliveriesCount(m, front);
    if i < |arrivals| - 1 {
      assert front[..i] == arrivals[..i];
      DeliveredInOrder(m, front, i);
    }
  }

  lemma {:induction false} DeliveriesCount(m: map<TypeUrl, Subscription>, arrivals: seq<Option<Response>>)
    requires forall j | 0 <= j < |arrivals| :: arrivals[j].Some? ==> arrivals[j].value.typeUrl in m
    ensures |Deliveries(m, arrivals)| == Successes(arrivals)
  {
    if arrivals != [] {
      DeliveriesCount(m, arrivals[..|arrivals| - 1]);
    }
  }
}
