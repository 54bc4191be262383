/**
  The plain ACK loop of `AdsClient`: `AggregatedDiscoveryService` and `continueChat`.
 */
module ChatLoop {
  import opened MuxModel

  /** The request that answers response `m` in a chat begun with `first`. */
  function Reply(first: Request, m: Response): Request {
    first.(versionInfo := m.versionInfo, responseNonce := m.nonce)
  }

  function Replies(first: Request, responses: seq<Response>): (ws: seq<Request>)
    ensures |ws| == |responses| && forall i | 0 <= i < |responses| :: ws[i] == Reply(first, responses[i])
  {
    seq(|responses|, i requires 0 <= i < |responses| => Reply(first, responses[i]))
  }

  class Chat {
    var request: Request
    var versionInfo: string
    var nonce: string
    var isOk: bool
    /** The requests written on the stream. */
    var written: seq<Request>

    /** The node after one more round of appending the identity to it. */
    function Named(): (n: Node)
      reads this
      ensures n.id == (if request.node.Some? then request.node.value.id else "") + "test-id"
      ensures n.cluster == (if request.node.Some? then request.node.value.cluster else "") + "test-cluster"
      ensures n.metadata == if request.node.Some? then request.node.value.metadata else map[]
    {
      var n := if request.node.Some? then request.node.value else Node("", "", map[]);
      n.(cluster := n.cluster + "test-cluster", id := n.id + "test-id")
    }

    method ContinueChat()
      modifies this
      ensures request == old(request).(versionInfo := old(versionInfo), responseNonce := old(nonce))
      ensures written == old(written) + [request]
      ensures isOk && versionInfo == old(versionInfo) && nonce == old(nonce)
    {
      request := request.(versionInfo := versionInfo);
      request := request.(responseNonce := nonce);
      written := written + [request];
      isOk := true;
    }

    /** The read loop: one answer for each response. */
    method AnswerAll(responses: seq<Response>)
      modifies this
      ensures written == old(written) + Replies(old(request), responses)
      ensures request == if responses == [] then old(request) else Reply(old(request), responses[|responses| - 1])
      ensures isOk <==> old(isOk) || responses != []
    {
      for i := 0 to |responses|
        invariant written == old(written) + Replies(old(request), responses[..i])
        invariant request == if i == 0 then old(request) else Reply(old(request), responses[i - 1])
        invariant isOk <==> old(isOk) || i > 0
      {
        versionInfo := responses[i].versionInfo;
        nonce := responses[i].nonce;
        ContinueChat();
        assert Replies(old(request), responses[..i + 1]) == Replies(old(request), responses[..i]) + [request];
      }
      assert responses[..|responses|] == responses;
    }

    /**
      For any responses: one request to begin with, then exactly one for each response, in
      order, echoing its version and nonce on the same type, names and node.
     */
    method AggregatedDiscoveryService(responses: seq<Response>) returns (ok: bool)
      modifies this
      ensures |written| == |old(written)| + 1 + |responses| && written[..|old(written)|] == old(written)
      ensures written[|old(written)|] == old(request).(versionInfo := "", node := Some(old(Named())), typeUrl := CLUSTER)
      ensures var first, answers := written[|old(written)|], written[|old(written)| + 1..];
              forall i | 0 <= i < |responses| ::
                && answers[i].versionInfo == responses[i].versionInfo && answers[i].responseNonce == responses[i].nonce
                && answers[i].typeUrl == first.typeUrl && answers[i].resourceNames == first.resourceNames
                && answers[i].node == first.node
      ensures ok <==> old(isOk) || responses != []
      ensures request == written[|written| - 1]
    {
      hide Replies;
      request := request.(versionInfo := "", node := Some(Named()), typeUrl := CLUSTER);
      written := written + [request];
      ghost var first := request;
      AnswerAll(responses);
      Parts(old(written), first, Replies(first, responses));
      return isOk;
    }
  }

  lemma Parts(before: seq<Request>, first: Request, answers: seq<Request>)
    ensures var ws := before + [first] + answers;
            && ws[..|before|] == before && ws[|before|] == first && ws[|before| + 1..] == answers
            && ws[|ws| - 1] == if answers == [] then first else answers[|answers| - 1]
  {
  }
}
