/**
 * One press of the "Check my diet" button: the blank-log check, the request
 * to the completion service, the classification of a client error, and the
 * results page built from the parsed reply. The service itself and
 * `json.loads` are outside the model: their outcome is the `Reply` argument.
 */
module App {
  import opened Wrappers
  import opened Text
  import opened Json
  import opened Render
  import Prompt
  import ScoreBands

  const ModelName: string := "models/gemini-flash-latest"
  const Temperature: real := 0.3

  /** What is sent to the completion service. */
  datatype Request = Request(model: string, contents: string, systemInstruction: string, temperature: real)

  /** How the completion service answers: with text, together with what
      `json.loads` makes of it (`None` when it is not valid JSON), or by
      raising a `ClientError` whose `str()` is `message`. */
  datatype Reply = Replied(text: string, parsed: Option<Json>) | ClientError(message: string)

  /** How the script run ends: normally, by `st.stop()`, or by an exception
      that escapes it. */
  datatype End = Finished | Stopped | Raised(message: string)

  /** The request sent, if any, what the page shows, and how the run ends. */
  datatype Outcome = Outcome(request: Option<Request>, page: seq<Element>, end: End)

  const EmptyLogWarning: string := "Please enter what you ate this week."
  const BusyWarning: string :=
    "\U{23F3} The app is temporarily busy. " + "Please wait about 30 seconds and try again."
  const InvalidJsonError: string := "The model returned invalid JSON."
  const DisplayError: string := "Something went wrong while displaying the results."

  const ScoreHeading: string := "Overall health score"
  const FocusHeading: string := "### \U{2B50} Focus for next week"
  const CuriousCaption: string := "If you\U{2019}re curious, you can dig a bit deeper \U{1F447}"
  const DetailsTitle: string := "See details: positives, concerns & nutrients"
  const SourcesTitle: string := "\U{1F4DA} Why this advice"

  /** The marker that turns a client error into "try again later". */
  const QuotaMarker: string := "RESOURCE_EXHAUSTED"

  datatype ErrorClass = RetryLater | Propagate

  /** A client error whose text contains `RESOURCE_EXHAUSTED` means the quota
      is used up and the user is asked to retry; any other is re-raised. */
  function ClassifyClientError(message: string): (c: ErrorClass)
    ensures c == RetryLater <==> exists i :: OccursAt(message, QuotaMarker, i)
  {
    if Contains(message, QuotaMarker) then RetryLater else Propagate
  }

  /** `p`, then `rest` unless `p` raised. */
  function Then(p: Partial, rest: Partial): (r: Partial)
    ensures p.fault.Some? ==> r == p
    ensures p.fault.None? ==> r == Prepend(p.shown, rest)
  {
    if p.fault.Some? then p else Prepend(p.shown, rest)
  }

  /** Elements shown by steps that cannot raise. */
  function Emit(shown: seq<Element>): Partial {
    Partial(shown, None)
  }

  /** What one `render_list` call shows. */
  function Listed(items: Json): Partial {
    match ListLines(items)
    case Failure(f) => Partial([], Some(f))
    case Success(lines) => Partial(lines, None)
  }

  /** The score heading, the score and its band caption, the summary, the
      focus and the captions above the details, for a numeric score. */
  function Header(members: seq<(string, Json)>, score: int): seq<Element> {
    [ Subheader(ScoreHeading),
      Markdown("### **" + IntToString(score) + " / 100**"),
      Caption(Str(ScoreBands.Caption(ScoreBands.BandOf(score)))),
      Subheader("Summary"),
      Write(Get(members, "summary", Str(""))),
      Markdown(FocusHeading),
      Info(Get(members, "recommendation", Str(""))),
      Caption(Str(CuriousCaption)),
      Expander(DetailsTitle),
      Subheader("\U{2705} Positives") ]
  }

  /** What the results code shows for the parsed reply `data`, up to the
      exception that stops it, if any. Missing keys take their defaults:
      score 0, summary and recommendation "", the three lists `None`, sources
      an empty list. */
  function Results(data: Json): (p: Partial)
    ensures !data.Obj? ==> p == Partial([], Some(NoGetMethod(KindOf(data))))
    ensures data.Obj? && !Get(data.members, "overall_score", Num(0)).Num? ==>
              p == Partial([Subheader(ScoreHeading)],
                           Some(NotDivisible(KindOf(Get(data.members, "overall_score", Num(0))))))
    ensures data.Obj? && Get(data.members, "overall_score", Num(0)).Num? ==>
              |p.shown| >= 10 && p.shown[..10] == Header(data.members, Get(data.members, "overall_score", Num(0)).n)
  {
    if !data.Obj? then Partial([], Some(NoGetMethod(KindOf(data))))
    else
      var m := data.members;
      var score := Get(m, "overall_score", Num(0));
      if !score.Num? then Partial([Subheader(ScoreHeading)], Some(NotDivisible(KindOf(score))))
      else
        Then(Emit(Header(m, score.n)), Details(m))
  }

  /** What follows the header for a numeric score: the three lists under
      their subheaders, then the sources under their expander. */
  function Details(m: seq<(string, Json)>): Partial {
    Then(Listed(Get(m, "positives", Null)),
    Then(Emit([Subheader("\U{26A0}\U{FE0F} Concerns")]),
    Then(Listed(Get(m, "concerns", Null)),
    Then(Emit([Subheader("\U{1F966} Missing nutrients")]),
    Then(Listed(Get(m, "missing_nutrients", Null)),
    Prepend([Expander(SourcesTitle)], SourceLines(Get(m, "sources", Arr([])))))))))
  }

  /** `p`, then `rest`, shows no code block when neither does. */
  lemma ThenNoCode(p: Partial, rest: Partial)
    requires NoCode(p.shown) && NoCode(rest.shown)
    ensures NoCode(Then(p, rest).shown)
  {
    if p.fault.None? {
      NoCodeJoin(p.shown, rest.shown);
    }
  }

  /** The lists and the sources show no code block. */
  lemma DetailsNoCode(m: seq<(string, Json)>)
    ensures NoCode(Details(m).shown)
  {
    var sources := SourceLines(Get(m, "sources", Arr([])));
    EntriesLinesNoCode(if Iterate(Get(m, "sources", Arr([]))).Success?
                       then Iterate(Get(m, "sources", Arr([]))).value else []);
    NoCodeJoin([Expander(SourcesTitle)], sources.shown);
    var tail := Prepend([Expander(SourcesTitle)], sources);
    var positives, concerns, missing := Get(m, "positives", Null), Get(m, "concerns", Null), Get(m, "missing_nutrients", Null);
    ListLinesNoCode(positives);
    ListLinesNoCode(concerns);
    ListLinesNoCode(missing);
    var p5 := Then(Listed(missing), tail);
    ThenNoCode(Listed(missing), tail);
    var p4 := Then(Emit([Subheader("\U{1F966} Missing nutrients")]), p5);
    ThenNoCode(Emit([Subheader("\U{1F966} Missing nutrients")]), p5);
    var p3 := Then(Listed(concerns), p4);
    ThenNoCode(Listed(concerns), p4);
    var p2 := Then(Emit([Subheader("\U{26A0}\U{FE0F} Concerns")]), p3);
    ThenNoCode(Emit([Subheader("\U{26A0}\U{FE0F} Concerns")]), p3);
    ThenNoCode(Listed(positives), p2);
  }

  /** The header shows no code block. */
  lemma HeaderNoCode(m: seq<(string, Json)>, score: int)
    ensures NoCode(Header(m, score))
  {
    var h := Header(m, score);
    assert |h| == 10;
    assert !h[0].Code? && !h[1].Code? && !h[2].Code? && !h[3].Code? && !h[4].Code?;
    assert !h[5].Code? && !h[6].Code? && !h[7].Code? && !h[8].Code? && !h[9].Code?;
    NoCodeOfTen(h);
  }

  /** Ten elements, none of them a code block. */
  lemma NoCodeOfTen(h: seq<Element>)
    requires |h| == 10
    requires !h[0].Code? && !h[1].Code? && !h[2].Code? && !h[3].Code? && !h[4].Code?
    requires !h[5].Code? && !h[6].Code? && !h[7].Code? && !h[8].Code? && !h[9].Code?
    ensures NoCode(h)
  {
  }

  /** The results code never shows a code block: the raw reply is shown only
      by the error handlers. */
  lemma ResultsShowNoCode(data: Json)
    ensures NoCode(Results(data).shown)
  {
    if data.Obj? && Get(data.members, "overall_score", Num(0)).Num? {
      var m := data.members;
      var h := Emit(Header(m, Get(m, "overall_score", Num(0)).n));
      DetailsNoCode(m);
      HeaderNoCode(m, Get(m, "overall_score", Num(0)).n);
      ThenNoCode(h, Details(m));
      assert Results(data) == Then(h, Details(m));
    }
  }

  /** The results code raises exactly when the reply is not a dictionary, its
      score is not a number, one of the three lists cannot be iterated, or
      the sources loop raises. */
  lemma ResultsFaultFree(data: Json)
    ensures Results(data).fault.None? <==>
              data.Obj? && Get(data.members, "overall_score", Num(0)).Num?
              && ListLines(Get(data.members, "positives", Null)).Success?
              && ListLines(Get(data.members, "concerns", Null)).Success?
              && ListLines(Get(data.members, "missing_nutrients", Null)).Success?
              && SourceLines(Get(data.members, "sources", Arr([]))).fault.None?
  {
  }

  /** The page after the reply arrived: invalid JSON is reported with the raw
      text; an exception while displaying keeps what was already shown and
      adds an error, the exception and the raw text. */
  function ResultsPage(parsed: Option<Json>, raw: string): (page: seq<Element>)
    ensures parsed.Some? ==> Results(parsed.value).shown <= page
    ensures Code(raw) in page <==> parsed.None? || Results(parsed.value).fault.Some?
    ensures parsed.None? ==> page == [Error(InvalidJsonError), Code(raw)]
    ensures parsed.Some? && Results(parsed.value).fault.None? ==> page == Results(parsed.value).shown
    ensures parsed.Some? && Results(parsed.value).fault.Some? ==>
              page == Results(parsed.value).shown
                      + [Error(DisplayError), Exception(Results(parsed.value).fault.value), Code(raw)]
  {
    match parsed
    case None => [Error(InvalidJsonError), Code(raw)]
    case Some(data) =>
      var p := Results(data);
      ResultsShowNoCode(data);
      match p.fault
      case None => p.shown
      case Some(f) => p.shown + [Error(DisplayError), Exception(f), Code(raw)]
  }

  /** The request for a log: the user prompt for it and the fixed model,
      system instruction and temperature. */
  function RequestFor(knowledge: string, foodLog: string): (r: Request)
    ensures r.contents == Prompt.BuildUserPrompt(knowledge, foodLog)
    ensures Prompt.ExtractFoodLog(r.contents, knowledge) == Some(foodLog)
    ensures r.systemInstruction == Prompt.SystemInstruction
    ensures r.model == ModelName && r.temperature == Temperature
  {
    Prompt.ExtractBuilt(knowledge, foodLog);
    Request(ModelName, Prompt.BuildUserPrompt(knowledge, foodLog), Prompt.SystemInstruction, Temperature)
  }

  /** What follows the request: a quota error stops the run with the busy
      warning, any other client error escapes unchanged, and a reply is
      displayed. */
  function Respond(reply: Reply): (r: (seq<Element>, End))
    ensures r.1 == Stopped <==> reply.ClientError? && exists i :: OccursAt(reply.message, QuotaMarker, i)
    ensures r.1 == Stopped ==> r.0 == [Warning(BusyWarning)]
    ensures r.1.Raised? <==> reply.ClientError? && !exists i :: OccursAt(reply.message, QuotaMarker, i)
    ensures r.1.Raised? ==> r.1.message == reply.message && r.0 == []
    ensures reply.Replied? ==> r == (ResultsPage(reply.parsed, reply.text), Finished)
  {
    match reply
    case ClientError(message) =>
      (match ClassifyClientError(message)
       case RetryLater => ([Warning(BusyWarning)], Stopped)
       case Propagate => ([], Raised(message)))
    case Replied(text, parsed) => (ResultsPage(parsed, text), Finished)
  }

  /** One press of the button with `foodLog` in the text area. A log that is
      whitespace only is rejected before any request; otherwise exactly one
      request is sent, for this log, and the reply decides the rest. */
  function Analyze(foodLog: string, knowledge: string, reply: Reply): (r: Outcome)
    ensures r.request.None? <==> AllSpace(foodLog)
    ensures r.request.None? ==> r.page == [Warning(EmptyLogWarning)] && r.end == Finished
    ensures r.request.Some? ==> r.request.value == RequestFor(knowledge, foodLog)
                                && (r.page, r.end) == Respond(reply)
  {
    if Strip(foodLog) == "" then
      Outcome(None, [Warning(EmptyLogWarning)], Finished)
    else
      var (page, end) := Respond(reply);
      Outcome(Some(RequestFor(knowledge, foodLog)), page, end)
  }

  /** A missing score is shown as 0, with the lowest band's caption. */
  lemma MissingScoreShownAsZero(members: seq<(string, Json)>)
    requires forall i | 0 <= i < |members| :: members[i].0 != "overall_score"
    ensures Get(members, "overall_score", Num(0)) == Num(0)
    ensures Header(members, 0)[1] == Markdown("### **0 / 100**")
    ensures Header(members, 0)[2] == Caption(Str("Overall pattern needs improvement"))
  {
    assert IntToString(0) == "0";
  }

  /** A missing summary is shown as "" and a missing recommendation as "". */
  lemma MissingTextsShownEmpty(members: seq<(string, Json)>, score: int)
    ensures (forall i | 0 <= i < |members| :: members[i].0 != "summary") ==>
              Header(members, score)[4] == Write(Str(""))
    ensures (forall i | 0 <= i < |members| :: members[i].0 != "recommendation") ==>
              Header(members, score)[6] == Info(Str(""))
  {
  }

  /** A reply without a `sources` key shows no cited source and raises
      nothing there. */
  lemma MissingSourcesShowNothing(members: seq<(string, Json)>)
    requires forall i | 0 <= i < |members| :: members[i].0 != "sources"
    ensures SourceLines(Get(members, "sources", Arr([]))) == Partial([], None)
  {
    assert Iterate(Arr([])) == Success([]);
  }

  /** A reply with none of the keys shows the score 0, empty texts, "- None"
      for each list and no sources. */
  lemma EmptyReplyPage(raw: string)
    ensures ResultsPage(Some(Obj([])), raw) ==
              [ Subheader(ScoreHeading),
                Markdown("### **0 / 100**"),
                Caption(Str("Overall pattern needs improvement")),
                Subheader("Summary"),
                Write(Str("")),
                Markdown(FocusHeading),
                Info(Str("")),
                Caption(Str(CuriousCaption)),
                Expander(DetailsTitle),
                Subheader("\U{2705} Positives"),
                Write(Str("- None")),
                Subheader("\U{26A0}\U{FE0F} Concerns"),
                Write(Str("- None")),
                Subheader("\U{1F966} Missing nutrients"),
                Write(Str("- None")),
                Expander(SourcesTitle) ]
  {
    var h := Header([], 0);
    EmptyHeader();
    EmptyDetails();
    assert Results(Obj([])) == Then(Emit(h), Details([]));
  }

  /** With none of the keys, the header shows the score 0 and empty texts. */
  lemma EmptyHeader()
    ensures Header([], 0) ==
              [ Subheader(ScoreHeading), Markdown("### **0 / 100**"),
                Caption(Str("Overall pattern needs improvement")), Subheader("Summary"),
                Write(Str("")), Markdown(FocusHeading), Info(Str("")),
                Caption(Str(CuriousCaption)), Expander(DetailsTitle),
                Subheader("\U{2705} Positives") ]
  {
    MissingScoreShownAsZero([]);
    MissingTextsShownEmpty([], 0);
  }

  /** With none of the keys, each list shows "- None" and no source follows. */
  lemma EmptyDetails()
    ensures Details([]) ==
              Partial([NoneLine, Subheader("\U{26A0}\U{FE0F} Concerns"), NoneLine,
                       Subheader("\U{1F966} Missing nutrients"), NoneLine, Expander(SourcesTitle)], None)
  {
    assert Listed(Null) == Partial([NoneLine], None);
    assert SourceLines(Arr([])) == Partial([], None);
  }
}
