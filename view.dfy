/** The view state the page script drives, as a value, and the effect each
    handler of `public/script.js` has on it. The `Viewer` class of module
    `Page` is proved to follow these functions step by step; the properties
    the page promises are proved here, once, about the functions. */
module View {
  import opened Text

  /** The glyph and space `showError` puts in front of every message. */
  const WarningPrefix: string := "\U{26A0}\U{FE0F} "
  const InvalidUrlMessage: string := "Please enter a valid URL"
  const FetchFailedMessage: string := "Failed to fetch content"
  const NoTitle: string := "No title"

  /** The POST body `{ url }` sent to `/fetch`; only a trimmed, non-empty URL is ever sent. */
  datatype Request = Request(url: string)

  /** How a request to `/fetch` ends, in place of the real `fetch`:
      a 2xx response whose JSON body was read, a response whose status is not
      2xx (with the body's `error` field, if it is a string), or a rejected
      promise (network failure or a body that is not JSON) carrying the
      error's `message`. */
  datatype Outcome =
    | Ok(title: Option<string>, content: string)
    | NotOk(error: Option<string>)
    | Threw(message: string)

  /** What the user sees. The three flags say whether the loading indicator,
      the result container and the error banner are shown (lack the `hidden`
      class); `surfaces` lists the contents written into the rendering
      surfaces the content container holds; `scrolls` counts the scrolls
      scheduled with `setTimeout`. */
  datatype ViewState = ViewState(
    loadingShown: bool,
    resultShown: bool,
    errorShown: bool,
    errorText: string,
    urlText: string,
    urlHref: string,
    titleText: string,
    surfaces: seq<string>,
    scrolls: nat)

  /** The page as first loaded: every region hidden, nothing written yet. */
  function Idle(): ViewState {
    ViewState(false, false, false, "", "", "", "", [], 0)
  }

  /** The request the submit handler issues for the raw input, if any. */
  function Issue(raw: string): Option<Request> {
    var url := Trim(raw);
    if url == "" then None else Some(Request(url))
  }

  /** `showError(message)`. */
  function WithError(v: ViewState, message: string): ViewState {
    v.(errorText := WarningPrefix + message, errorShown := true, resultShown := false)
  }

  /** The submit handler up to the `fetch` call. */
  function AfterSubmit(v: ViewState, raw: string): ViewState {
    if Issue(raw).None? then WithError(v, InvalidUrlMessage)
    else v.(loadingShown := true, resultShown := false, errorShown := false, scrolls := v.scrolls + 1)
  }

  /** The message the `catch` block shows for a failed outcome. */
  function FailureMessage(o: Outcome): string
    requires !o.Ok?
  {
    match o
    case NotOk(error) => Or(error, FetchFailedMessage)
    case Threw(message) => message
  }

  /** The submit handler from the response on, `finally` included, as the
      code is written. */
  function AfterComplete(v: ViewState, request: Request, o: Outcome): ViewState {
    match o
    case Ok(title, content) =>
      v.(urlText := request.url, urlHref := request.url, titleText := Or(title, NoTitle),
         surfaces := [content], loadingShown := false, resultShown := true,
         scrolls := v.scrolls + 1)
    case _ =>
      WithError(v, FailureMessage(o)).(scrolls := v.scrolls + 1, loadingShown := false)
  }

  /** The same step with the error banner also hidden on success: the
      request settles with exactly one of result and banner shown. */
  function AfterCompleteFixed(v: ViewState, request: Request, o: Outcome): (w: ViewState)
    ensures !w.loadingShown
    ensures w.resultShown <==> o.Ok?
    ensures w.errorShown <==> !o.Ok?
  {
    var w := AfterComplete(v, request, o);
    if o.Ok? then w.(errorShown := false) else w
  }

  /** The focus handler on the input. */
  function AfterFocus(v: ViewState): ViewState {
    v.(errorShown := false)
  }

  // ---------------------------------------------------------------------
  // One handler at a time.

  /** An input that is blank after trimming issues no request and only
      raises the fixed error; loading, info bar, surfaces and scrolls keep
      their values. */
  lemma BlankInputRejected(v: ViewState, raw: string)
    requires AllSpace(raw)
    ensures Issue(raw) == None
    ensures var w := AfterSubmit(v, raw);
      && w.errorShown && !w.resultShown
      && w.errorText == "\U{26A0}\U{FE0F} Please enter a valid URL"
      && w.loadingShown == v.loadingShown && w.scrolls == v.scrolls
      && w.urlText == v.urlText && w.urlHref == v.urlHref && w.titleText == v.titleText
      && w.surfaces == v.surfaces
  {
    TrimEmptyIff(raw);
    assert Issue(raw) == None;
    InvalidUrlBanner();
  }

  lemma InvalidUrlBanner()
    ensures WarningPrefix + InvalidUrlMessage == "\U{26A0}\U{FE0F} Please enter a valid URL"
  {
  }

  /** Any other input issues exactly one request, carrying the trimmed URL,
      and shows only the loading indicator, with one scroll scheduled; the
      texts and surfaces keep their values. */
  lemma InputStartsLoading(v: ViewState, raw: string)
    requires !AllSpace(raw)
    ensures Issue(raw) == Some(Request(Trim(raw))) && Trim(raw) != ""
    ensures var w := AfterSubmit(v, raw);
      && w.loadingShown && !w.resultShown && !w.errorShown
      && w.scrolls == v.scrolls + 1
      && w.errorText == v.errorText && w.urlText == v.urlText && w.urlHref == v.urlHref
      && w.titleText == v.titleText && w.surfaces == v.surfaces
  {
    TrimEmptyIff(raw);
  }

  /** A failed request shows the warning glyph and the server's `error`
      when it is a non-empty string, otherwise the generic message; a thrown
      failure shows its own message. The info bar and surfaces keep their
      values and one more scroll is scheduled. */
  lemma FailureShowsMessage(v: ViewState, request: Request, o: Outcome)
    requires !o.Ok?
    ensures var w := AfterComplete(v, request, o);
      && w.errorShown && !w.resultShown && !w.loadingShown
      && (o.NotOk? && o.error.Some? && o.error.value != "" ==> w.errorText == WarningPrefix + o.error.value)
      && (o.NotOk? && (o.error.None? || o.error.value == "") ==> w.errorText == "\U{26A0}\U{FE0F} Failed to fetch content")
      && (o.Threw? ==> w.errorText == WarningPrefix + o.message)
      && w.urlText == v.urlText && w.urlHref == v.urlHref && w.titleText == v.titleText
      && w.surfaces == v.surfaces && w.scrolls == v.scrolls + 1
  {
    FetchFailedBanner();
  }

  lemma FetchFailedBanner()
    ensures WarningPrefix + FetchFailedMessage == "\U{26A0}\U{FE0F} Failed to fetch content"
  {
  }

  /** A successful request shows the result: the info bar holds the
      submitted URL (as text and as link), the title or "No title", and the
      container holds one surface with the returned content whatever it held
      before. The error banner and its text are left as they were. */
  lemma SuccessShowsResult(v: ViewState, request: Request, o: Outcome)
    requires o.Ok?
    ensures var w := AfterComplete(v, request, o);
      && w.resultShown && !w.loadingShown
      && w.urlText == request.url && w.urlHref == request.url
      && (o.title.Some? && o.title.value != "" ==> w.titleText == o.title.value)
      && (o.title.None? || o.title.value == "" ==> w.titleText == "No title")
      && w.surfaces == [o.content]
      && w.errorShown == v.errorShown && w.errorText == v.errorText
      && w.scrolls == v.scrolls + 1
  {
  }

  /** Focusing the input hides the banner and changes nothing else. */
  lemma FocusHidesOnlyError(v: ViewState)
    ensures var w := AfterFocus(v);
      && !w.errorShown
      && w.resultShown == v.resultShown && w.loadingShown == v.loadingShown
      && w.errorText == v.errorText && w.urlText == v.urlText && w.urlHref == v.urlHref
      && w.titleText == v.titleText && w.surfaces == v.surfaces && w.scrolls == v.scrolls
  {
  }

  /** One submission answered before anything else happens ends with the
      loading indicator hidden and exactly one of result and banner shown. */
  lemma SessionEndsSettled(v: ViewState, raw: string, o: Outcome)
    requires !AllSpace(raw)
    ensures Issue(raw).Some?
    ensures var w := AfterComplete(AfterSubmit(v, raw), Issue(raw).value, o);
      && !w.loadingShown
      && (w.resultShown <==> o.Ok?)
      && (w.errorShown <==> !o.Ok?)
      && (o.Ok? ==> w.urlText == Trim(raw) && w.surfaces == [o.content])
  {
    TrimEmptyIff(raw);
  }

  // ---------------------------------------------------------------------
  // Any order of calls.

  /** A handler invocation. A completion may carry any request: the page
      keeps no record of what is outstanding, so responses can arrive in any
      order relative to later submissions and focus events. */
  datatype Event =
    | Submitted(raw: string)
    | Completed(request: Request, outcome: Outcome)
    | Focused

  /** One handler; `fixed` selects the corrected completion. */
  function Step(v: ViewState, e: Event, fixed: bool): ViewState {
    match e
    case Submitted(raw) => AfterSubmit(v, raw)
    case Completed(request, o) =>
      if fixed then AfterCompleteFixed(v, request, o) else AfterComplete(v, request, o)
    case Focused => AfterFocus(v)
  }

  function Run(v: ViewState, events: seq<Event>, fixed: bool): ViewState
    decreases |events|
  {
    if events == [] then v else Run(Step(v, events[0], fixed), events[1..], fixed)
  }

  /** What holds of the page however its handlers interleave: loading and
      result are never shown together, the container never holds more than
      one surface and holds one whenever the result is shown, a shown banner
      always carries the warning glyph, and the link's `href` attribute
      equals its text. */
  ghost predicate Coherent(v: ViewState) {
    && !(v.loadingShown && v.resultShown)
    && |v.surfaces| <= 1
    && (v.resultShown ==> |v.surfaces| == 1)
    && (v.errorShown ==> WarningPrefix <= v.errorText)
    && v.urlText == v.urlHref
  }

  /** `Coherent` plus result and banner never shown together, which the
      corrected completion keeps. */
  ghost predicate Exclusive(v: ViewState) {
    Coherent(v) && !(v.resultShown && v.errorShown)
  }

  lemma StepKeepsCoherent(v: ViewState, e: Event, fixed: bool)
    requires Coherent(v)
    ensures Coherent(Step(v, e, fixed))
  {
    match e
    case Submitted(raw) =>
    case Completed(request, o) =>
    case Focused =>
  }

  lemma {:induction false} RunKeepsCoherent(v: ViewState, events: seq<Event>, fixed: bool)
    requires Coherent(v)
    ensures Coherent(Run(v, events, fixed))
    decreases |events|
  {
    if events != [] {
      StepKeepsCoherent(v, events[0], fixed);
      RunKeepsCoherent(Step(v, events[0], fixed), events[1..], fixed);
    }
  }

  /** Scrolls scheduled by a sequence of calls: one per submission that
      issues a request, one per completion, none for blank input or focus. */
  function ScrollsScheduled(events: seq<Event>): nat
    decreases |events|
  {
    if events == [] then 0
    else
      var here := match events[0]
        case Submitted(raw) => if Issue(raw).Some? then 1 else 0
        case Completed(_, _) => 1
        case Focused => 0;
      here + ScrollsScheduled(events[1..])
  }

  lemma {:induction false} RunSchedulesScrolls(v: ViewState, events: seq<Event>, fixed: bool)
    ensures Run(v, events, fixed).scrolls == v.scrolls + ScrollsScheduled(events)
    decreases |events|
  {
    if events != [] {
      RunSchedulesScrolls(Step(v, events[0], fixed), events[1..], fixed);
    }
  }

  /** Under either completion, a blank submission made while a request is
      outstanding shows the banner next to the loading indicator. */
  lemma BlankWhileLoadingShowsBanner(fixed: bool)
    ensures var w := Run(Idle(), [Submitted("a"), Submitted(" ")], fixed);
      w.loadingShown && w.errorShown && !w.resultShown
  {
    assert IsSpace(' ') && !IsSpace('a');
    TrimEmptyIff(" ");
    TrimEmptyIff("a");
  }

  // ---------------------------------------------------------------------
  // The result and the banner as written.

  /** As written, a blank submission made while a request is outstanding
      shows the banner, and the success that follows shows the result
      without hiding it: both end up visible. */
  lemma ResultAndErrorBothShown()
    ensures var w := Run(Idle(),
      [Submitted("a"), Submitted(" "), Completed(Request("a"), Ok(None, "<p></p>"))], false);
      w.resultShown && w.errorShown
  {
    assert IsSpace(' ') && !IsSpace('a');
    TrimEmptyIff(" ");
    TrimEmptyIff("a");
  }

  /** As written, two overlapping requests whose first fails and whose
      second then succeeds leave the failure's banner next to the result,
      with no blank input involved. */
  lemma OverlapLeavesBannerShown()
    ensures var w := Run(Idle(),
      [Submitted("a"), Submitted("b"), Completed(Request("a"), Threw("x")),
       Completed(Request("b"), Ok(None, "c"))], false);
      w.resultShown && w.errorShown
  {
    TrimEmptyIff("a");
    TrimEmptyIff("b");
  }

  /** With the banner hidden on success, result and banner are never shown
      together, however the handlers interleave. */
  lemma {:induction false} FixedRunKeepsExclusive(v: ViewState, events: seq<Event>)
    requires Exclusive(v)
    ensures Exclusive(Run(v, events, true))
    decreases |events|
  {
    if events != [] {
      StepKeepsCoherent(v, events[0], true);
      FixedRunKeepsExclusive(Step(v, events[0], true), events[1..]);
    }
  }

  /** From the page as first loaded, the corrected handlers never show the
      result and the banner together, whatever calls follow. */
  lemma FixedNeverShowsBoth(events: seq<Event>)
    ensures var w := Run(Idle(), events, true);
      !(w.resultShown && w.errorShown) && !(w.loadingShown && w.resultShown)
  {
    assert Exclusive(Idle());
    FixedRunKeepsExclusive(Idle(), events);
  }
}
