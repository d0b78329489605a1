/** The admission decision of the APM-agent mutating webhook: given an
    admission review and the read-only agent table, the server either gives
    up early (no request), fails (the Pod cannot be decoded or the patch
    cannot be encoded),
    allows the Pod unmodified with one of three explanatory messages, or
    allows it with a JSON Patch built from the configured agent. */
module Webhook {
  import opened Wrappers

  newtype byte = x: int | 0 <= x < 256

  /** One entry of the agent table: the image to inject and its environment. */
  datatype AgentConfig = AgentConfig(image: string, environment: map<string, string>)

  /** Agent name -> configuration; built at startup and only read afterwards. */
  type AgentTable = map<string, AgentConfig>

  /** The annotation key a Pod uses to select its agent. */
  const APM_ANNOTATION := "elastic-apm-agent"

  /** The text `fmt.Errorf` puts before the decoder's own error. */
  const DECODE_ERROR_PREFIX := "unable unmarshal pod json object "

  /** The Pod's spec, the target of the patch; its structure is only seen by
      the patch builder, which is not part of this model. */
  type PodSpec(==)

  /** The patch operations the patch builder produces. */
  type Patch

  /** The decoded Pod: its annotation map (None is Go's nil map, which is not
      the same as an empty map) and its spec. */
  datatype Pod = Pod(annotations: Option<map<string, string>>, spec: PodSpec)

  /** The code `mutate` calls but that is not part of this model: the JSON
      decoder of the Pod's raw bytes, the patch builder and the JSON encoder
      of the patch. Each decoder or encoder may fail with an error text. */
  datatype Externals = Externals(
    decodePod: seq<byte> -> Result<Pod>,
    createPatch: (AgentConfig, PodSpec) -> Patch,
    marshalPatch: Patch -> Result<seq<byte>>)

  /** The request of an admission review: its identifier and the Pod's raw bytes. */
  datatype AdmissionRequest = AdmissionRequest(uid: string, rawObject: seq<byte>)

  /** The only patch type the webhook emits. */
  datatype PatchType = JSONPatch

  /** The part of a status the webhook fills in. */
  datatype Status = Status(status: string, message: string)

  /** The response of an admission review; every `Option` is a Go pointer or
      slice that may stay nil. */
  datatype AdmissionResponse = AdmissionResponse(
    uid: string,
    allowed: bool,
    patchType: Option<PatchType>,
    patch: Option<seq<byte>>,
    result: Option<Status>)

  /** How the Pod's annotations select an agent configuration. */
  datatype Resolution =
    | NoAnnotations
    | MissingAgentAnnotation
    | UnknownAgent(name: string)
    | Resolved(name: string, config: AgentConfig)

  /** What `mutate` does with a request that is present: an error it
      returns, or the response it stores in the review. */
  datatype Outcome = Failed(error: string) | Responded(response: AdmissionResponse)

  /** True when `s` occurs in `m` as a contiguous block. */
  ghost predicate Contains(m: string, s: string) {
    exists i, j :: 0 <= i <= j <= |m| && m[i..j] == s
  }

  /** The lookup of the selector annotation, then of its value in the table. */
  function Resolve(annotations: Option<map<string, string>>, agents: AgentTable): (r: Resolution)
    ensures r == NoAnnotations <==> annotations.None?
    ensures r == MissingAgentAnnotation <==>
              annotations.Some? && APM_ANNOTATION !in annotations.value
    ensures r.UnknownAgent? <==>
              annotations.Some? && APM_ANNOTATION in annotations.value
              && annotations.value[APM_ANNOTATION] !in agents
    ensures r.Resolved? <==>
              annotations.Some? && APM_ANNOTATION in annotations.value
              && annotations.value[APM_ANNOTATION] in agents
    ensures (r.UnknownAgent? || r.Resolved?) ==> r.name == annotations.value[APM_ANNOTATION]
    ensures r.Resolved? ==> r.name in agents && r.config == agents[r.name]
  {
    match annotations
    case None => NoAnnotations
    case Some(a) =>
      if APM_ANNOTATION !in a then MissingAgentAnnotation
      else if a[APM_ANNOTATION] !in agents then UnknownAgent(a[APM_ANNOTATION])
      else Resolved(a[APM_ANNOTATION], agents[a[APM_ANNOTATION]])
  }

  /** The message of an allowed, unmodified response. */
  function StatusMessage(r: Resolution): (m: string)
    requires !r.Resolved?
    ensures m != ""
    ensures r.UnknownAgent? ==> Contains(m, r.name)
  {
    match r
    case NoAnnotations => "no annotations present"
    case MissingAgentAnnotation => "missing annotation `elastic-apm-agent`"
    case UnknownAgent(name) =>
      var m := "no config for agent `" + name + "`";
      assert m[21..21 + |name|] == name;
      m
  }

  /** The decision `mutate` makes once a request is present. */
  function Decide(request: AdmissionRequest, agents: AgentTable, ext: Externals): (o: Outcome)
    // every response allows the Pod and answers the request it came from
    ensures o.Responded? ==> o.response.allowed && o.response.uid == request.uid
    ensures o.Responded? ==> o.response.result.Some?
    // a patch type is set exactly when a patch is present, and then the status is "Success"
    ensures o.Responded? ==> (o.response.patchType.Some? <==> o.response.patch.Some?)
    ensures o.Responded? ==> (o.response.patch.Some? <==> o.response.result.value.status == "Success")
    ensures ext.decodePod(request.rawObject).Err? ==>
              o == Failed(DECODE_ERROR_PREFIX + ext.decodePod(request.rawObject).error)
    ensures ext.decodePod(request.rawObject).Ok? ==>
              var pod := ext.decodePod(request.rawObject).value;
              var r := Resolve(pod.annotations, agents);
              (!r.Resolved? ==>
                 o == Responded(AdmissionResponse(request.uid, true, None, None,
                                                  Some(Status("", StatusMessage(r))))))
              && (r.Resolved? ==>
                    var m := ext.marshalPatch(ext.createPatch(r.config, pod.spec));
                    (m.Err? ==> o == Failed(m.error))
                    && (m.Ok? ==> o == Responded(AdmissionResponse(request.uid, true, Some(JSONPatch),
                                                                   Some(m.value), Some(Status("Success", ""))))))
  {
    match ext.decodePod(request.rawObject)
    case Err(e) => Failed(DECODE_ERROR_PREFIX + e)
    case Ok(pod) =>
      var r := Resolve(pod.annotations, agents);
      if !r.Resolved? then
        Responded(AdmissionResponse(request.uid, true, None, None, Some(Status("", StatusMessage(r)))))
      else
        match ext.marshalPatch(ext.createPatch(r.config, pod.spec))
        case Err(e) => Failed(e)
        case Ok(bytes) =>
          Responded(AdmissionResponse(request.uid, true, Some(JSONPatch), Some(bytes), Some(Status("Success", ""))))
  }

  /** Where the three messages of an unmodified response differ: the first
      letter, the fourth letter, and the quoted agent name. */
  lemma MessageShape(r: Resolution)
    requires !r.Resolved?
    ensures var m := StatusMessage(r);
            |m| >= 22
            && (m[0] == 'm' <==> r == MissingAgentAnnotation)
            && (m[3] == 'a' <==> r == NoAnnotations)
            && (r.UnknownAgent? ==> m[21..|m| - 1] == r.name)
  {
  }

  /** The three messages of an unmodified response are pairwise different,
      and the last one determines the agent name: the message alone tells
      which condition applied. */
  lemma MessageIdentifiesResolution(r1: Resolution, r2: Resolution)
    requires !r1.Resolved? && !r2.Resolved?
    requires StatusMessage(r1) == StatusMessage(r2)
    ensures r1 == r2
  {
    MessageShape(r1);
    MessageShape(r2);
  }

  /** Only the selector annotation matters: two annotation maps that agree on
      it resolve alike, whatever else they hold. */
  lemma ResolveIgnoresOtherAnnotations(a1: map<string, string>, a2: map<string, string>, agents: AgentTable)
    requires APM_ANNOTATION in a1 <==> APM_ANNOTATION in a2
    requires APM_ANNOTATION in a1 ==> a1[APM_ANNOTATION] == a2[APM_ANNOTATION]
    ensures Resolve(Some(a1), agents) == Resolve(Some(a2), agents)
  {
  }

  /** An empty but present annotation map is not "no annotations". */
  lemma EmptyAnnotationsAreMissingSelector(agents: AgentTable)
    ensures Resolve(Some(map[]), agents) == MissingAgentAnnotation
  {
  }

  /** Two requests that both got an unmodified response carrying the same
      message were resolved alike. */
  lemma UnmodifiedResponseRevealsResolution(
    q1: AdmissionRequest, q2: AdmissionRequest, agents: AgentTable, ext: Externals)
    requires Decide(q1, agents, ext).Responded? && Decide(q1, agents, ext).response.patch.None?
    requires Decide(q2, agents, ext).Responded? && Decide(q2, agents, ext).response.patch.None?
    requires Decide(q1, agents, ext).response.result == Decide(q2, agents, ext).response.result
    ensures Resolve(ext.decodePod(q1.rawObject).value.annotations, agents)
            == Resolve(ext.decodePod(q2.rawObject).value.annotations, agents)
  {
    var r1 := Resolve(ext.decodePod(q1.rawObject).value.annotations, agents);
    var r2 := Resolve(ext.decodePod(q2.rawObject).value.annotations, agents);
    MessageIdentifiesResolution(r1, r2);
  }

  /** An admission review as the handler decoded it; `mutate` fills in its response. */
  class AdmissionReview {
    var request: Option<AdmissionRequest>
    var response: Option<AdmissionResponse>

    constructor (request: Option<AdmissionRequest>, response: Option<AdmissionResponse>)
      ensures this.request == request && this.response == response
    {
      this.request := request;
      this.response := response;
    }
  }

  /** The webhook server; its agent table is read by every request and
      written by none. */
  class Server {
    const agents: AgentTable

    constructor (agents: AgentTable)
      ensures this.agents == agents
    {
      this.agents := agents;
    }

    /** Decides on `review`'s request and stores the response in `review`,
        or returns an error and leaves the response as it was. */
    method Mutate(review: AdmissionReview, ext: Externals) returns (err: Option<string>)
      modifies review
      ensures review.request == old(review.request)
      // no request: nothing to do and no error
      ensures old(review.request).None? ==> err.None? && review.response == old(review.response)
      ensures old(review.request).Some? ==>
                match Decide(old(review.request).value, agents, ext)
                case Failed(e) => err == Some(e) && review.response == old(review.response)
                case Responded(r) => err.None? && review.response == Some(r)
    {
      var ar := review.request;
      var resp := AdmissionResponse("", false, None, None, None);
      if ar.None? {
        return None;
      }
      var decoded := ext.decodePod(ar.value.rawObject);
      if decoded.Err? {
        return Some(DECODE_ERROR_PREFIX + decoded.error);
      }
      var pod := decoded.value;
      resp := resp.(allowed := true);
      resp := resp.(uid := ar.value.uid);

      var result := Status("", "");
      var annotations := pod.annotations;
      if annotations.None? {
        result := result.(message := "no annotations present");
        resp := resp.(result := Some(result));
        review.response := Some(resp);
        return None;
      }
      if APM_ANNOTATION !in annotations.value {
        result := result.(message := "missing annotation `elastic-apm-agent`");
        resp := resp.(result := Some(result));
        review.response := Some(resp);
        return None;
      }
      var agent := annotations.value[APM_ANNOTATION];
      if agent !in agents {
        result := result.(message := "no config for agent `" + agent + "`");
        resp := resp.(result := Some(result));
        review.response := Some(resp);
        return None;
      }
      var config := agents[agent];

      resp := resp.(patchType := Some(JSONPatch));
      var patch := ext.createPatch(config, pod.spec);
      var marshaled := ext.marshalPatch(patch);
      if marshaled.Err? {
        return Some(marshaled.error);
      }
      resp := resp.(patch := Some(marshaled.value));
      resp := resp.(result := Some(Status("Success", "")));
      review.response := Some(resp);
      return None;
    }
  }
}
