/** One inference request per keyphrase, in order, to a remote zero-shot classifier that
    the model treats as an arbitrary function from requests to responses, and the rule
    that accepts or rejects the whole batch of responses. */
module Inference {

  /** The POST the application sends: endpoint, `Authorization` header, and the JSON
      body `{"inputs": ..., "parameters": {"candidate_labels": ...}, "options":
      {"wait_for_model": ...}}`. */
  datatype Request = Request(
    url: string,
    authorization: string,
    inputs: string,
    candidateLabels: seq<string>,
    waitForModel: bool)

  /** A decoded response: the classification, or an error-shaped body. */
  datatype Response =
    | Success(sequence: string, labels: seq<string>, scores: seq<real>)
    | Failure(error: string)

  /** The remote service; the network call itself is not modelled. */
  type Service = Request -> Response

  function Bearer(apiKey: string): string
  {
    "Bearer " + apiKey
  }

  /** The request for one keyphrase. */
  function Payload(url: string, apiKey: string, labels: seq<string>, line: string): Request
  {
    Request(url, Bearer(apiKey), line, labels, true)
  }

  /** The requests issued for a list of keyphrases: one each, in list order. */
  function Requests(url: string, apiKey: string, labels: seq<string>, lines: seq<string>): (qs: seq<Request>)
    ensures |qs| == |lines|
    ensures forall i | 0 <= i < |lines| :: qs[i] == Payload(url, apiKey, labels, lines[i])
  {
    if |lines| == 0 then []
    else [Payload(url, apiKey, labels, lines[0])] + Requests(url, apiKey, labels, lines[1..])
  }

  /** The inputs carried by a list of requests. */
  function Inputs(qs: seq<Request>): seq<string>
  {
    if |qs| == 0 then [] else [qs[0].inputs] + Inputs(qs[1..])
  }

  /** Reading the keyphrases back off the requests gives the keyphrase list itself. */
  lemma {:induction false} RequestsCarryLines(url: string, apiKey: string, labels: seq<string>, lines: seq<string>)
    ensures Inputs(Requests(url, apiKey, labels, lines)) == lines
    decreases |lines|
  {
    if |lines| > 0 {
      var qs := Requests(url, apiKey, labels, lines);
      var rest := Requests(url, apiKey, labels, lines[1..]);
      assert qs == [Payload(url, apiKey, labels, lines[0])] + rest;
      assert qs[1..] == rest;
      assert Inputs(qs) == [lines[0]] + Inputs(rest);
      RequestsCarryLines(url, apiKey, labels, lines[1..]);
      assert lines == [lines[0]] + lines[1..];
    }
  }

  /** The responses to a list of requests, in request order. */
  function Answers(service: Service, qs: seq<Request>): (rs: seq<Response>)
    ensures |rs| == |qs|
    ensures forall i | 0 <= i < |qs| :: rs[i] == service(qs[i])
  {
    if |qs| == 0 then [] else [service(qs[0])] + Answers(service, qs[1..])
  }

  /** The query loop: one request per keyphrase, each answer appended in turn. */
  method QueryEach(service: Service, url: string, apiKey: string, labels: seq<string>, lines: seq<string>)
    returns (requests: seq<Request>, responses: seq<Response>)
    ensures requests == Requests(url, apiKey, labels, lines)
    ensures responses == Answers(service, requests)
    ensures |responses| == |lines|
  {
    requests := [];
    responses := [];
    var i := 0;
    while i < |lines|
      invariant 0 <= i <= |lines|
      invariant |requests| == i && |responses| == i
      invariant forall k | 0 <= k < i :: requests[k] == Payload(url, apiKey, labels, lines[k])
      invariant forall k | 0 <= k < i :: responses[k] == service(requests[k])
    {
      var request := Payload(url, apiKey, labels, lines[i]);
      var response := service(request);
      requests := requests + [request];
      responses := responses + [response];
      i := i + 1;
    }
  }

  /** Whether some response is error-shaped, i.e. the table built from the responses
      would have an `error` column. */
  function HasError(rs: seq<Response>): (e: bool)
    ensures e <==> exists i | 0 <= i < |rs| :: rs[i].Failure?
  {
    if |rs| == 0 then false
    else rs[0].Failure? || HasError(rs[1..])
  }

  /** The acceptance rule: a batch is rejected when its table would be empty or would
      carry an `error` column. */
  function Accepted(rs: seq<Response>): (ok: bool)
    ensures ok <==> |rs| > 0 && forall i | 0 <= i < |rs| :: rs[i].Success?
  {
    |rs| > 0 && !HasError(rs)
  }
}
