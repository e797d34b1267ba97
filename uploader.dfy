/**
 * The synchronisation run of uploader.py: upload the facts document, merge a reference to
 * it into the agent's knowledge-base list, then fetch the agent again to report it.
 *
 * The remote service is an object (`Remote`) holding the agent configuration, the uploaded
 * documents and the log of requests it has received. What the network answers (status
 * codes, the upload response) is a parameter, `Network`. Each step is first defined as a
 * function on `RemoteState`; the methods of `Remote` perform the step on the object and
 * are proved to agree with those functions, and the properties of a run are lemmas about
 * the function `Run`.
 */
module Uploader {
  import opened Wrappers
  import opened Json
  import opened KnowledgeBase

  /** The environment: `ELEVENLABS_API_KEY` and `ELEVENLABS_AGENT_ID` (None when unset). */
  datatype Config = Config(apiKey: Option<string>, agentId: Option<string>)

  /** Python truthiness of an environment variable: set and non-empty. */
  predicate Given(v: Option<string>) {
    v.Some? && v.value != ""
  }

  /** The name under which the document is uploaded, and its local file name. */
  const DocumentName: string := "facts"
  const FileName: string := "facts.txt"

  /** The status code every request must return. */
  const StatusOk: int := 200

  /** What the network does on this run. */
  datatype Network = Network(
    fileReadable: bool,    // whether facts.txt could be opened
    uploadStatus: int,     // status of POST /convai/knowledge-base/file
    uploadBody: Value,     // the decoded JSON of that response
    fetchStatus: int,      // status of the GET issued by update_agent_knowledge
    patchStatus: int,      // status of PATCH /convai/agents/{id}
    verifyStatus: int)     // status of the GET issued by main to verify

  /** The exceptions a run can raise; `main` catches and logs every one of them. */
  datatype Error =
    | MissingApiKey
    | MissingAgentId
    | FileUnreadable
    | UploadRejected(status: int)
    | MissingDocumentId
    | GetRejected(status: int)
    | MalformedKnowledgeBase
    | PatchRejected(status: int)

  /** A request as the remote service receives it. */
  datatype Request =
    | UploadFile(fileName: string, name: string)
    | GetAgent(agentId: string)
    | PatchAgent(agentId: string, body: Value)

  /** The remote service: the agent configuration, the stored documents, the requests received. */
  datatype RemoteState = RemoteState(agent: Value, documents: seq<Value>, requests: seq<Request>)

  /** A step's outcome: the remote state after it and its result or the exception it raised. */
  datatype Step<T> = Step(state: RemoteState, result: Result<T, Error>)

  // ---------------------------------------------------------------------------------------
  // The steps as functions
  // ---------------------------------------------------------------------------------------

  /** `upload_to_knowledge_base`: POST the file; a 200 stores the document and returns the body. */
  function UploadStep(s: RemoteState, cfg: Config, net: Network): Step<Value> {
    if !Given(cfg.apiKey) then Step(s, Err(MissingApiKey))
    else if !net.fileReadable then Step(s, Err(FileUnreadable))
    else
      var sent := s.(requests := s.requests + [UploadFile(FileName, DocumentName)]);
      if net.uploadStatus != StatusOk then Step(sent, Err(UploadRejected(net.uploadStatus)))
      else Step(sent.(documents := sent.documents + [net.uploadBody]), Ok(net.uploadBody))
  }

  /** `get_agent`: GET the agent; a 200 returns the stored configuration. */
  function GetAgentStep(s: RemoteState, cfg: Config, status: int): Step<Value> {
    if !Given(cfg.apiKey) then Step(s, Err(MissingApiKey))
    else if !Given(cfg.agentId) then Step(s, Err(MissingAgentId))
    else
      var sent := s.(requests := s.requests + [GetAgent(cfg.agentId.value)]);
      if status != StatusOk then Step(sent, Err(GetRejected(status)))
      else Step(sent, Ok(s.agent))
  }

  /** The remote service applying a PATCH body: it replaces the nested knowledge_base list. */
  function ApplyPatch(agent: Value, merged: seq<Value>): Value {
    SetKnowledgeBase(agent, merged)
  }

  /**
   * `update_agent_knowledge`: check the credentials, fetch the agent, merge the reference
   * to document `id` into its list and PATCH the merged list back.
   */
  function UpdateStep(s: RemoteState, cfg: Config, id: Value, net: Network): Step<Value> {
    if !Given(cfg.apiKey) then Step(s, Err(MissingApiKey))
    else if !Given(cfg.agentId) then Step(s, Err(MissingAgentId))
    else
      var fetched := GetAgentStep(s, cfg, net.fetchStatus);
      if fetched.result.Err? then fetched
      else
        var s1 := fetched.state;
        match ExistingRefs(fetched.result.value)
        case None => Step(s1, Err(MalformedKnowledgeBase))
        case Some(existing) =>
          match Merge(existing, id)
          case None => Step(s1, Err(MalformedKnowledgeBase))
          case Some(merged) =>
            var sent := s1.(requests := s1.requests + [PatchAgent(cfg.agentId.value, PatchBody(merged))]);
            if net.patchStatus != StatusOk then Step(sent, Err(PatchRejected(net.patchStatus)))
            else
              var patched := sent.(agent := ApplyPatch(sent.agent, merged));
              Step(patched, Ok(patched.agent))
  }

  /** `kb_response['id']`. */
  function DocumentId(response: Value): Option<Value> {
    if response.Obj? && "id" in response.fields then Some(response.fields["id"]) else None
  }

  /** `main`: upload, update the agent, fetch it again; the first exception ends the run. */
  function Run(s: RemoteState, cfg: Config, net: Network): Step<()> {
    var up := UploadStep(s, cfg, net);
    if up.result.Err? then Step(up.state, Err(up.result.error))
    else
      match DocumentId(up.result.value)
      case None => Step(up.state, Err(MissingDocumentId))
      case Some(id) =>
        var upd := UpdateStep(up.state, cfg, id, net);
        if upd.result.Err? then Step(upd.state, Err(upd.result.error))
        else
          var ver := GetAgentStep(upd.state, cfg, net.verifyStatus);
          if ver.result.Err? then Step(ver.state, Err(ver.result.error))
          else Step(ver.state, Ok(()))
  }

  // ---------------------------------------------------------------------------------------
  // The remote service as an object, and the run as a method on it
  // ---------------------------------------------------------------------------------------

  class Remote {
    var agent: Value
    var documents: seq<Value>
    var requests: seq<Request>

    function State(): RemoteState
      reads this
    {
      RemoteState(agent, documents, requests)
    }

    constructor (agent: Value, documents: seq<Value>)
      ensures State() == RemoteState(agent, documents, [])
    {
      this.agent := agent;
      this.documents := documents;
      this.requests := [];
    }

    method UploadToKnowledgeBase(cfg: Config, net: Network) returns (res: Result<Value, Error>)
      modifies this
      ensures State() == UploadStep(old(State()), cfg, net).state
      ensures res == UploadStep(old(State()), cfg, net).result
    {
      if !Given(cfg.apiKey) {
        return Err(MissingApiKey);
      }
      if !net.fileReadable {
        return Err(FileUnreadable);
      }
      requests := requests + [UploadFile(FileName, DocumentName)];
      if net.uploadStatus != StatusOk {
        return Err(UploadRejected(net.uploadStatus));
      }
      documents := documents + [net.uploadBody];
      res := Ok(net.uploadBody);
    }

    method FetchAgent(cfg: Config, status: int) returns (res: Result<Value, Error>)
      modifies this
      ensures State() == GetAgentStep(old(State()), cfg, status).state
      ensures res == GetAgentStep(old(State()), cfg, status).result
    {
      if !Given(cfg.apiKey) {
        return Err(MissingApiKey);
      }
      if !Given(cfg.agentId) {
        return Err(MissingAgentId);
      }
      requests := requests + [GetAgent(cfg.agentId.value)];
      if status != StatusOk {
        return Err(GetRejected(status));
      }
      res := Ok(agent);
    }

    method UpdateAgentKnowledge(cfg: Config, id: Value, net: Network) returns (res: Result<Value, Error>)
      modifies this
      ensures State() == UpdateStep(old(State()), cfg, id, net).state
      ensures res == UpdateStep(old(State()), cfg, id, net).result
    {
      if !Given(cfg.apiKey) {
        return Err(MissingApiKey);
      }
      if !Given(cfg.agentId) {
        return Err(MissingAgentId);
      }
      var current := FetchAgent(cfg, net.fetchStatus);
      if current.Err? {
        return current;
      }
      var existing := ExistingRefs(current.value);
      if existing.None? {
        return Err(MalformedKnowledgeBase);
      }
      var merged := Merge(existing.value, id);
      if merged.None? {
        return Err(MalformedKnowledgeBase);
      }
      requests := requests + [PatchAgent(cfg.agentId.value, PatchBody(merged.value))];
      if net.patchStatus != StatusOk {
        return Err(PatchRejected(net.patchStatus));
      }
      agent := ApplyPatch(agent, merged.value);
      res := Ok(agent);
    }

    /** `main()`: every exception is caught and reported as the returned error. */
    method Synchronize(cfg: Config, net: Network) returns (failure: Option<Error>)
      modifies this
      ensures State() == Run(old(State()), cfg, net).state
      ensures failure == (if Run(old(State()), cfg, net).result.Err?
                          then Some(Run(old(State()), cfg, net).result.error) else None)
    {
      var uploaded := UploadToKnowledgeBase(cfg, net);
      if uploaded.Err? {
        return Some(uploaded.error);
      }
      var id := DocumentId(uploaded.value);
      if id.None? {
        return Some(MissingDocumentId);
      }
      var updated := UpdateAgentKnowledge(cfg, id.value, net);
      if updated.Err? {
        return Some(updated.error);
      }
      var verified := FetchAgent(cfg, net.verifyStatus);
      if verified.Err? {
        return Some(verified.error);
      }
      failure := None;
    }
  }

  // ---------------------------------------------------------------------------------------
  // Properties of a run
  // ---------------------------------------------------------------------------------------

  /** The requests a run added to the log. */
  function Issued(s: RemoteState, cfg: Config, net: Network): seq<Request>
    requires |s.requests| <= |Run(s, cfg, net).state.requests|
  {
    Run(s, cfg, net).state.requests[|s.requests|..]
  }

  /** Every agent request of a successful step went to the configured agent. */
  predicate ForAgent(r: Request, cfg: Config) {
    (r.GetAgent? ==> Given(cfg.agentId) && r.agentId == cfg.agentId.value) &&
    (r.PatchAgent? ==> Given(cfg.agentId) && r.agentId == cfg.agentId.value)
  }

  /** A missing API key stops the run before any request is sent and before anything changes. */
  lemma NoApiKeyNoRequest(s: RemoteState, cfg: Config, net: Network)
    requires !Given(cfg.apiKey)
    ensures Run(s, cfg, net) == Step(s, Err(MissingApiKey))
  {
  }

  /**
   * `update_agent_knowledge` and `get_agent` check the API key and then the agent id
   * before sending anything: with either missing, no request goes out and nothing changes.
   */
  lemma CredentialsCheckedFirst(s: RemoteState, cfg: Config, id: Value, net: Network, status: int)
    requires !Given(cfg.apiKey) || !Given(cfg.agentId)
    ensures var e := if !Given(cfg.apiKey) then MissingApiKey else MissingAgentId;
      UpdateStep(s, cfg, id, net) == Step(s, Err(e)) && GetAgentStep(s, cfg, status) == Step(s, Err(e))
  {
  }

  /**
   * A missing agent id is detected only after the upload: the document is stored, the
   * agent is neither fetched nor patched, and the run reports the missing id.
   */
  lemma NoAgentIdUploadsOnly(s: RemoteState, cfg: Config, net: Network)
    requires Given(cfg.apiKey) && !Given(cfg.agentId)
    requires net.fileReadable && net.uploadStatus == StatusOk && DocumentId(net.uploadBody).Some?
    ensures Run(s, cfg, net).state ==
      RemoteState(s.agent, s.documents + [net.uploadBody], s.requests + [UploadFile(FileName, DocumentName)])
    ensures Run(s, cfg, net).result == Err(MissingAgentId)
  {
  }

  /** A failed upload leaves the agent and the documents alone and ends the run. */
  lemma UploadFailureStopsRun(s: RemoteState, cfg: Config, net: Network)
    requires Given(cfg.apiKey) && net.fileReadable && net.uploadStatus != StatusOk
    ensures Run(s, cfg, net).state == s.(requests := s.requests + [UploadFile(FileName, DocumentName)])
    ensures Run(s, cfg, net).result == Err(UploadRejected(net.uploadStatus))
  {
  }

  /**
   * The order of a run: the log only grows; the new requests are a prefix of
   * upload, get, patch, get; and a PATCH is sent only after an upload the service accepted
   * with an id in its response.
   */
  lemma RunRequestOrder(s: RemoteState, cfg: Config, net: Network)
    ensures var r := Run(s, cfg, net).state.requests;
      |s.requests| <= |r| && r[..|s.requests|] == s.requests
    ensures var issued := Issued(s, cfg, net);
      |issued| <= 4 &&
      (|issued| >= 1 ==> issued[0] == UploadFile(FileName, DocumentName)) &&
      (forall i :: 1 <= i < |issued| ==> ForAgent(issued[i], cfg)) &&
      (|issued| >= 2 ==> issued[1].GetAgent?) &&
      (|issued| >= 3 ==> issued[2].PatchAgent? && net.fileReadable && net.uploadStatus == StatusOk &&
                         DocumentId(net.uploadBody).Some? && net.fetchStatus == StatusOk) &&
      (|issued| >= 4 ==> issued[3].GetAgent? && net.patchStatus == StatusOk)
    ensures forall i :: 0 <= i < |Issued(s, cfg, net)| && Issued(s, cfg, net)[i].PatchAgent? ==> i == 2
  {
    var up := UploadStep(s, cfg, net);
    if up.result.Ok? && DocumentId(up.result.value).Some? {
      var upd := UpdateStep(up.state, cfg, DocumentId(up.result.value).value, net);
      assert upd.state.requests[..|s.requests|] == s.requests;
    }
  }

  /** The agent configuration changes only through an accepted PATCH. */
  lemma AgentChangesOnlyByPatch(s: RemoteState, cfg: Config, net: Network)
    requires Run(s, cfg, net).state.agent != s.agent
    ensures net.fileReadable && net.uploadStatus == StatusOk && net.fetchStatus == StatusOk &&
            net.patchStatus == StatusOk
    ensures DocumentId(net.uploadBody).Some? && ExistingRefs(s.agent).Some?
    ensures Run(s, cfg, net).state.agent ==
            SetKnowledgeBase(s.agent, Merge(ExistingRefs(s.agent).value, DocumentId(net.uploadBody).value).value)
  {
  }

  /** Every step of the run succeeded. */
  predicate Succeeds(s: RemoteState, cfg: Config, net: Network) {
    Given(cfg.apiKey) && Given(cfg.agentId) && net.fileReadable &&
    net.uploadStatus == StatusOk && DocumentId(net.uploadBody).Some? &&
    net.fetchStatus == StatusOk && ExistingRefs(s.agent).Some? &&
    AllWellShaped(ExistingRefs(s.agent).value) &&
    net.patchStatus == StatusOk && net.verifyStatus == StatusOk
  }

  /**
   * A run reports no error exactly when every step succeeds, and then the agent's list is
   * the merge of its old list with the new document's reference, that reference is its
   * last entry and the only stale one, and the four requests went out in order.
   */
  lemma RunSucceeds(s: RemoteState, cfg: Config, net: Network)
    ensures Run(s, cfg, net).result.Ok? <==> Succeeds(s, cfg, net)
    ensures Succeeds(s, cfg, net) ==>
      var id := DocumentId(net.uploadBody).value;
      var after := Run(s, cfg, net).state;
      var merged := Merge(ExistingRefs(s.agent).value, id);
      merged.Some? &&
      ExistingRefs(after.agent) == merged &&
      merged.value[|merged.value| - 1] == NewRef(id) &&
      (forall i :: 0 <= i < |merged.value| ==> (Stale(merged.value[i]) <==> i == |merged.value| - 1)) &&
      after.documents == s.documents + [net.uploadBody] &&
      after.requests == s.requests + [UploadFile(FileName, DocumentName), GetAgent(cfg.agentId.value),
                                      PatchAgent(cfg.agentId.value, PatchBody(merged.value)),
                                      GetAgent(cfg.agentId.value)]
  {
    if Given(cfg.apiKey) && Given(cfg.agentId) && net.fileReadable && net.uploadStatus == StatusOk &&
       DocumentId(net.uploadBody).Some? && net.fetchStatus == StatusOk && ExistingRefs(s.agent).Some? {
      var id := DocumentId(net.uploadBody).value;
      MergeShape(ExistingRefs(s.agent).value, id);
      if AllWellShaped(ExistingRefs(s.agent).value) && net.patchStatus == StatusOk {
        SetKnowledgeBaseFrame(s.agent, Merge(ExistingRefs(s.agent).value, id).value);
      }
    }
  }

  /**
   * Two successful runs in a row leave the list the second run alone would have produced
   * from the original list: the first run's reference is replaced, never duplicated.
   */
  lemma RepeatedRunsLastWriterWins(s: RemoteState, cfg: Config, net1: Network, net2: Network)
    requires Succeeds(s, cfg, net1)
    requires net2.fileReadable && net2.uploadStatus == StatusOk && DocumentId(net2.uploadBody).Some?
    requires net2.fetchStatus == StatusOk && net2.patchStatus == StatusOk && net2.verifyStatus == StatusOk
    ensures var s1 := Run(s, cfg, net1).state;
      Succeeds(s1, cfg, net2) &&
      ExistingRefs(Run(s1, cfg, net2).state.agent) ==
        Merge(ExistingRefs(s.agent).value, DocumentId(net2.uploadBody).value)
  {
    var id1, id2 := DocumentId(net1.uploadBody).value, DocumentId(net2.uploadBody).value;
    var existing := ExistingRefs(s.agent).value;
    RunSucceeds(s, cfg, net1);
    var s1 := Run(s, cfg, net1).state;
    MergeShape(existing, id1);
    assert AllWellShaped(ExistingRefs(s1.agent).value);
    RunSucceeds(s1, cfg, net2);
    MergeLastWriterWins(existing, id1, id2);
  }
}
