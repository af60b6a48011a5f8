/**
 * Channel creation and joining, as the SDK client sees them: `createChannel` is a status check
 * on the orderer's answer, `joinChannel` a fold over the peers' join results. The SDK client,
 * the envelope file, the orderer and the peers are collaborators whose answers are inputs.
 */
module Channel {
  import opened Wrappers

  /** The text of a thrown JavaScript `Error` with the given message (`Error.prototype.toString`). */
  function ErrorText(message: string): string {
    "Error: " + message
  }

  // ---- createChannel ----

  /** The request sent to the orderer: the extracted config, its signatures, the channel name. */
  datatype CreateRequest = CreateRequest(config: string, signatures: seq<string>, name: string)

  /** The orderer's broadcast response; only its status is read. */
  datatype CreateResponse = CreateResponse(status: string)

  /**
   * What `createChannel`'s collaborators answer: the org's client, the channel config extracted
   * from the envelope file, its signature by the client's admin identity, and the orderer's
   * response (`None` for an absent response).
   */
  datatype CreateAnswers = CreateAnswers(
    client: Reply<()>,
    config: Reply<string>,
    signature: Reply<string>,
    response: Reply<Option<CreateResponse>>)

  /** The result of `createChannel` and the request it sent to the orderer, if it got that far. */
  datatype CreateOutcome = CreateOutcome(ok: bool, sent: Option<CreateRequest>)

  const SuccessStatus := "SUCCESS"

  /**
   * `createChannel`: build the request (exactly one signature), send it once, and report
   * whether a response came back with status `SUCCESS`. Anything thrown on the way gives false.
   */
  function CreateChannel(channelName: string, a: CreateAnswers): (r: CreateOutcome)
    ensures r.sent.Some? <==> a.client.Ok? && a.config.Ok? && a.signature.Ok?
    ensures r.sent.Some? ==>
      && r.sent.value.name == channelName
      && r.sent.value.config == a.config.value
      && |r.sent.value.signatures| == 1
      && r.sent.value.signatures[0] == a.signature.value
    ensures r.ok <==>
      && r.sent.Some?
      && a.response.Ok? && a.response.value.Some?
      && a.response.value.value.status == SuccessStatus
  {
    if a.client.Fail? || a.config.Fail? || a.signature.Fail? then CreateOutcome(false, None)
    else
      var request := CreateRequest(a.config.value, [a.signature.value], channelName);
      match a.response
      case Fail(_) => CreateOutcome(false, Some(request))
      case Ok(response) =>
        CreateOutcome(response.Some? && response.value.status == SuccessStatus, Some(request))
  }

  // ---- joinChannel ----

  /** One peer's entry in the join results: a thrown error, or a proposal response. */
  datatype PeerJoinResult =
    | JoinError(message: string)
    /** `status` is `None` when the entry carries no `response`. */
    | JoinResponse(status: Option<int>)

  /** The collaborator calls `joinChannel` makes, in order. */
  datatype JoinCall =
    | GetClient(org: string)
    | GetGenesisBlock(channel: string)
    | JoinPeers(targets: seq<string>, block: string)

  /**
   * What `joinChannel`'s collaborators answer: the org's client, whether the connection
   * profile defines the channel, the genesis block from the orderer, and the peers' results
   * (the last element of the `Promise.all` results).
   */
  datatype JoinAnswers = JoinAnswers(
    client: Reply<()>,
    channelDefined: bool,
    genesisBlock: Reply<string>,
    join: Reply<seq<PeerJoinResult>>)

  datatype JoinOutcome = JoinOutcome(ok: bool, errorMessage: Option<string>, calls: seq<JoinCall>)

  /** A peer joined when its response has status 200. */
  predicate Joined(p: PeerJoinResult) {
    p.JoinResponse? && p.status == Some(200)
  }

  const FailurePrefix := "Failed to join peer to the channel"

  /** The message recorded for a peer that did not join; both forms share one prefix. */
  function FailureMessage(channelName: string, p: PeerJoinResult): (s: string)
    ensures |s| > |FailurePrefix| && s[..|FailurePrefix|] == FailurePrefix
  {
    if p.JoinError? then "Failed to join peer to the channel with error :: " + ErrorText(p.message)
    else "Failed to join peer to the channel " + channelName
  }

  function NotDefinedMessage(channelName: string): string {
    "Channel " + channelName + " was not defined in the connection profile"
  }

  /**
   * The `for ... in peers_results` loop: visit every result in order, each failure
   * overwriting the error message. `done` results have been visited; `acc` is the message so far.
   */
  function ClassifyFrom(channelName: string, results: seq<PeerJoinResult>, done: nat, acc: Option<string>)
    : (m: Option<string>)
    decreases |results| - done
  {
    if done >= |results| then acc
    else
      var p := results[done];
      ClassifyFrom(channelName, results, done + 1,
                   if Joined(p) then acc else Some(FailureMessage(channelName, p)))
  }

  /** The error message left by the loop when it starts with none. */
  function Classify(channelName: string, results: seq<PeerJoinResult>): Option<string> {
    ClassifyFrom(channelName, results, 0, None)
  }

  /**
   * `joinChannel`: an undefined channel, a failed genesis block fetch or a rejected join
   * records the thrown error's text; otherwise the peers' results are classified. The result
   * is true when no message was recorded; the source tests `!error_message`, so an empty
   * message also counts as success.
   */
  function JoinChannel(channelName: string, peers: seq<string>, orgName: string, a: JoinAnswers): (r: JoinOutcome)
    ensures r.ok <==> r.errorMessage.None? || r.errorMessage.value == ""
    ensures |r.calls| >= 1 && r.calls[0] == GetClient(orgName)
    ensures a.client.Ok? && a.channelDefined <==> |r.calls| >= 2 && r.calls[1] == GetGenesisBlock(channelName)
    ensures !(a.client.Ok? && a.channelDefined) ==> r.calls == [GetClient(orgName)]
    ensures a.client.Ok? && !a.channelDefined ==>
      !r.ok && r.errorMessage == Some(ErrorText(NotDefinedMessage(channelName)))
    ensures a.client.Ok? && a.channelDefined && a.genesisBlock.Ok? ==>
      r.calls == [GetClient(orgName), GetGenesisBlock(channelName), JoinPeers(peers, a.genesisBlock.value)]
  {
    var start := [GetClient(orgName)];
    if a.client.Fail? then JoinResult(Some(a.client.reason), start)
    else if !a.channelDefined then JoinResult(Some(ErrorText(NotDefinedMessage(channelName))), start)
    else
      var fetched := start + [GetGenesisBlock(channelName)];
      match a.genesisBlock
      case Fail(reason) => JoinResult(Some(reason), fetched)
      case Ok(block) =>
        var calls := fetched + [JoinPeers(peers, block)];
        match a.join
        case Fail(reason) => JoinResult(Some(reason), calls)
        case Ok(results) => JoinResult(Classify(channelName, results), calls)
  }

  /** The final `if (!error_message)` test. */
  function JoinResult(errorMessage: Option<string>, calls: seq<JoinCall>): (r: JoinOutcome)
    ensures r.errorMessage == errorMessage && r.calls == calls
    ensures r.ok <==> errorMessage.None? || errorMessage.value == ""
  {
    JoinOutcome(errorMessage.None? || errorMessage.value == "", errorMessage, calls)
  }

  // ---- the fold against its reference meaning ----

  /** Reference meaning: the message of the last result that did not join, or `acc` if none. */
  ghost predicate LastFailureIs(channelName: string, results: seq<PeerJoinResult>, done: nat,
                                acc: Option<string>, m: Option<string>)
  {
    || ((forall j :: done <= j < |results| ==> Joined(results[j])) && m == acc)
    || (exists k :: done <= k < |results| && !Joined(results[k])
          && m == Some(FailureMessage(channelName, results[k]))
          && forall j :: k < j < |results| ==> Joined(results[j]))
  }

  lemma {:induction false} ClassifyFromIsLastFailure(channelName: string, results: seq<PeerJoinResult>,
                                                     done: nat, acc: Option<string>)
    ensures LastFailureIs(channelName, results, done, acc, ClassifyFrom(channelName, results, done, acc))
    decreases |results| - done
  {
    if done < |results| {
      var p := results[done];
      var acc' := if Joined(p) then acc else Some(FailureMessage(channelName, p));
      ClassifyFromIsLastFailure(channelName, results, done + 1, acc');
      var m := ClassifyFrom(channelName, results, done, acc);
      if forall j :: done + 1 <= j < |results| ==> Joined(results[j]) {
        if !Joined(p) {
          assert m == Some(FailureMessage(channelName, results[done]));
        }
      } else {
        var k :| done + 1 <= k < |results| && !Joined(results[k])
          && m == Some(FailureMessage(channelName, results[k]))
          && forall j :: k < j < |results| ==> Joined(results[j]);
      }
    }
  }

  /**
   * The loop records no message exactly when every peer joined (vacuously so for no
   * results); otherwise the message is that of the last peer that did not join.
   */
  lemma ClassifyIsLastFailure(channelName: string, results: seq<PeerJoinResult>)
    ensures Classify(channelName, results).None? <==> forall j :: 0 <= j < |results| ==> Joined(results[j])
    ensures Classify(channelName, results).Some? ==>
      exists k :: 0 <= k < |results| && !Joined(results[k])
        && Classify(channelName, results) == Some(FailureMessage(channelName, results[k]))
        && forall j :: k < j < |results| ==> Joined(results[j])
  {
    ClassifyFromIsLastFailure(channelName, results, 0, None);
  }

  /**
   * When the client, the channel, the genesis block and the join request all come through,
   * `joinChannel` is true exactly when every peer's response has status 200.
   */
  lemma JoinChannelAllJoined(channelName: string, peers: seq<string>, orgName: string, a: JoinAnswers)
    requires a.client.Ok? && a.channelDefined && a.genesisBlock.Ok? && a.join.Ok?
    ensures JoinChannel(channelName, peers, orgName, a).ok <==>
      forall j :: 0 <= j < |a.join.value| ==> Joined(a.join.value[j])
  {
    ClassifyIsLastFailure(channelName, a.join.value);
    var m := Classify(channelName, a.join.value);
    if m.Some? {
      var k :| 0 <= k < |a.join.value| && !Joined(a.join.value[k]) && m == Some(FailureMessage(channelName, a.join.value[k]));
    }
  }

  /**
   * A thrown value whose text is empty is mistaken for success by the final `!error_message`
   * test: a client lookup rejected with an empty reason makes `joinChannel` return true
   * without contacting the orderer.
   */
  lemma JoinChannelEmptyReasonIsSuccess(channelName: string, peers: seq<string>, orgName: string, a: JoinAnswers)
    requires a.client == Fail("")
    ensures JoinChannel(channelName, peers, orgName, a).ok
    ensures JoinChannel(channelName, peers, orgName, a).calls == [GetClient(orgName)]
  {
  }
}
