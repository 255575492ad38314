/** One run of the script, from the submitted form to what the page ends up showing
    and the session flag `valid_inputs_received` it leaves behind. */
module App {

  import opened Options
  import Lines
  import Keyphrases
  import Gate
  import Endpoints
  import Inference

  /** The default value of the API key field in unlocked mode. */
  const PlaceholderKey: string := "YOUR-HF-API-KEY"

  /** The values of the form at the time of the run. `secret` is the stored demo token. */
  datatype Form = Form(
    demo: bool,
    secret: string,
    enteredKey: string,
    model: string,
    labels: seq<string>,
    text: string,
    submit: bool)

  /** What the run ends with: a `KeyError` on the model name, a stop at the validation
      chain, a batch of responses rejected, or the result table. Every outcome after
      the model lookup also carries the truncation notice, which is shown inside the
      form. */
  datatype Screen =
    | Crashed(model: string)
    | Stopped(notice: Option<Keyphrases.Notice>, warning: Option<Gate.Warning>)
    | Rejected(notice: Option<Keyphrases.Notice>, requests: seq<Inference.Request>, responses: seq<Inference.Response>)
    | Shown(notice: Option<Keyphrases.Notice>, requests: seq<Inference.Request>, responses: seq<Inference.Response>)

  datatype Step = Step(screen: Screen, valid: bool)

  /** The key sent to the service: the stored token in demo mode, the field otherwise. */
  function ApiKey(f: Form): string
  {
    if f.demo then f.secret else f.enteredKey
  }

  /** One run of the script. */
  function Run(f: Form, valid: bool, service: Inference.Service): (s: Step)
    ensures s.screen.Crashed? ==> s == Step(Crashed(f.model), valid)
    ensures s.screen.Crashed? <==> f.model !in Endpoints.UrlMap
    ensures s.screen.Stopped? ==>
              Gate.Check(f.submit, valid, f.text, f.labels, ApiKey(f)).outcome == Gate.Halt(s.screen.warning)
    ensures !s.screen.Crashed? ==> (s.valid <==> s.screen.Shown?)
    ensures !s.screen.Crashed? ==> s.screen.notice == Keyphrases.Normalise(f.text, f.demo).notice
    ensures s.screen.Stopped? <==>
              f.model in Endpoints.UrlMap && !Gate.Admissible(f.submit, valid, f.text, f.labels, ApiKey(f))
    ensures s.screen.Rejected? || s.screen.Shown? ==>
              s.screen.requests ==
                Inference.Requests(Endpoints.UrlMap[f.model], ApiKey(f), f.labels,
                                   Keyphrases.Normalise(f.text, f.demo).lines)
              && |s.screen.responses| == |s.screen.requests|
              && forall i | 0 <= i < |s.screen.requests| :: s.screen.responses[i] == service(s.screen.requests[i])
    ensures s.screen.Shown? ==>
              |s.screen.responses| > 0 && forall i | 0 <= i < |s.screen.responses| :: s.screen.responses[i].Success?
    ensures s.screen.Rejected? ==>
              |s.screen.responses| == 0 || exists i | 0 <= i < |s.screen.responses| :: s.screen.responses[i].Failure?
  {
    match Endpoints.LookupUrl(f.model)
    case None => Step(Crashed(f.model), valid)
    case Some(url) =>
      var key := ApiKey(f);
      var n := Keyphrases.Normalise(f.text, f.demo);
      var d := Gate.Check(f.submit, valid, f.text, f.labels, key);
      if d.outcome.Halt? then Step(Stopped(n.notice, d.outcome.warning), d.valid)
      else
        var requests := Inference.Requests(url, key, f.labels, n.lines);
        var responses := Inference.Answers(service, requests);
        if Inference.Accepted(responses) then Step(Shown(n.notice, requests, responses), d.valid)
        else Step(Rejected(n.notice, requests, responses), false)
  }

  /** Every request a run sends carries the stored token in demo mode and the entered
      key, unchanged, in unlocked mode, as a bearer token. */
  lemma RequestsCarryKey(f: Form, valid: bool, service: Inference.Service)
    ensures var s := Run(f, valid, service);
            s.screen.Rejected? || s.screen.Shown? ==>
              forall i | 0 <= i < |s.screen.requests| ::
                s.screen.requests[i].authorization == "Bearer " + (if f.demo then f.secret else f.enteredKey)
  {
  }

  /** A submission with fewer than two labels never reaches the service. */
  lemma FewLabelsNeverQuery(f: Form, valid: bool, service: Inference.Service)
    requires f.submit && |f.labels| < 2
    ensures Run(f, valid, service).screen.Crashed? || Run(f, valid, service).screen.Stopped?
    ensures !Run(f, valid, service).screen.Crashed? ==> !Run(f, valid, service).valid
  {
  }

  /** A text of newlines only is not empty, so it passes the chain, but it leaves no
      keyphrase: the run issues no request and rejects the empty batch. */
  lemma {:induction false} NewlinesOnlyRejected(f: Form, valid: bool, service: Inference.Service)
    requires f.model in Endpoints.UrlMap
    requires f.submit && |f.labels| >= 2 && ApiKey(f) != ""
    requires |f.text| > 0 && forall i | 0 <= i < |f.text| :: f.text[i] == Lines.Newline
    ensures Run(f, valid, service) == Step(Rejected(None, [], []), false)
  {
    Lines.NewlinesSplitIntoEmptyPieces(f.text);
    assert Keyphrases.Candidates(f.text) == {};
    Keyphrases.NoticeWhenOverCap(f.text, f.demo);
    Keyphrases.NormaliseMembers(f.text, f.demo);
    var n := Keyphrases.Normalise(f.text, f.demo);
    Keyphrases.NoMembersIsEmpty(n.lines);
    assert n.notice == None;
    var key := ApiKey(f);
    assert Gate.Check(f.submit, valid, f.text, f.labels, key).outcome == Gate.Proceed;
    var requests := Inference.Requests(Endpoints.UrlMap[f.model], key, f.labels, n.lines);
    assert requests == [];
    assert Inference.Answers(service, requests) == [];
  }

  /** In unlocked mode the untouched placeholder key counts as a key: the chain never
      asks for one, and a submission with text and labels reaches the service. */
  lemma PlaceholderKeyAccepted(f: Form, valid: bool, service: Inference.Service)
    requires !f.demo && f.enteredKey == PlaceholderKey && f.model in Endpoints.UrlMap
    requires f.submit && f.text != "" && |f.labels| >= 2
    ensures !Run(f, valid, service).screen.Stopped?
  {
  }

  /** The keyphrases of the example: a line given twice and followed by a newline is
      classified once, in either mode, with no notice. */
  lemma {:induction false} RepeatedLineOnce(line: string, demo: bool)
    requires line != "" && Lines.Newline !in line
    ensures Keyphrases.Normalise(line + "\n" + line + "\n", demo) == Keyphrases.Normalised([line], None)
  {
    var pieces := [line, line, ""];
    assert Lines.Join([line, ""]) == line + "\n";
    assert Lines.Join(pieces) == line + "\n" + Lines.Join([line, ""]);
    assert line + "\n" + line + "\n" == Lines.Join(pieces);
    Lines.SplitJoin(pieces);
    assert Keyphrases.DedupFrom([""], {line}) == [""];
    assert Keyphrases.DedupFrom([line, ""], {line}) == [""];
    assert pieces[1..] == [line, ""];
    assert {} + {line} == {line};
    assert Keyphrases.Dedup(pieces) == [line] + Keyphrases.DedupFrom([line, ""], {line});
    assert Keyphrases.NonEmpty([line, ""]) == [line];
  }

  /** A submission of one line given twice and followed by a newline (for example
      `"I love this\nI love this\n"` with the labels `Positive` and `Negative`) issues
      one request in either mode, and a successful answer gives a one-row table. */
  lemma RepeatedLineOneRequest(f: Form, line: string, valid: bool, service: Inference.Service)
    requires f.model in Endpoints.UrlMap
    requires ApiKey(f) != "" && f.submit && |f.labels| >= 2
    requires line != "" && Lines.Newline !in line && f.text == line + "\n" + line + "\n"
    requires service(Inference.Payload(Endpoints.UrlMap[f.model], ApiKey(f), f.labels, line)).Success?
    ensures Run(f, valid, service).screen.Shown?
    ensures Run(f, valid, service).valid
    ensures Run(f, valid, service).screen.requests == [Inference.Payload(Endpoints.UrlMap[f.model], ApiKey(f), f.labels, line)]
  {
    RepeatedLineOnce(line, f.demo);
    var url := Endpoints.UrlMap[f.model];
    var requests := Inference.Requests(url, ApiKey(f), f.labels, [line]);
    assert requests == [Inference.Payload(url, ApiKey(f), f.labels, line)];
    assert Inference.Accepted(Inference.Answers(service, requests));
  }
}
