/** The handlers of `public/script.js` over the page's elements, written the
    way the script writes them: flag by flag and field by field. The submit,
    completion and focus handlers are proved to move the abstract `State()`
    exactly as the matching function of module `View` says; the surface's
    `onload` step changes only the surface and its anchors. */
module Page {
  import opened Text
  import opened View

  /** The `sandbox` attribute given to every rendering surface. */
  const SandboxPolicy: string := "allow-same-origin allow-scripts"
  const NewContext: string := "_blank"
  const NoOpener: string := "noopener noreferrer"

  /** An anchor element inside a rendered page. */
  datatype Link = Link(href: string, text: string, target: string, rel: string)

  /** Whether the surface's document could be read once it loaded: either
      the height of its body, or the failure the read raised. */
  datatype DocumentAccess = Readable(scrollHeight: nat) | Unreadable(reason: string)

  /** The link list after every anchor is made to open a new top-level
      context without an opener or a referrer. */
  function OpenExternally(links: seq<Link>): (r: seq<Link>)
    ensures |r| == |links|
    ensures forall i :: 0 <= i < |r| ==> r[i].target == NewContext && r[i].rel == NoOpener
    ensures forall i :: 0 <= i < |r| ==> r[i].href == links[i].href && r[i].text == links[i].text
  {
    seq(|links|, i requires 0 <= i < |links| => links[i].(target := NewContext, rel := NoOpener))
  }

  predicate AllOpenExternally(links: seq<Link>) {
    forall i :: 0 <= i < |links| ==> links[i].target == NewContext && links[i].rel == NoOpener
  }

  /** Rewriting is idempotent: the lists it leaves alone are exactly those
      whose links already open externally. */
  lemma OpenExternallyFixpoints(links: seq<Link>)
    ensures OpenExternally(links) == links <==> AllOpenExternally(links)
    ensures OpenExternally(OpenExternally(links)) == OpenExternally(links)
  {
    if AllOpenExternally(links) {
      var r := OpenExternally(links);
      assert forall i :: 0 <= i < |r| ==> r[i] == links[i];
    }
  }

  /** An embedded rendering surface (an iframe): its content and sandbox
      are set once, its height when its document has loaded. */
  class Surface {
    const content: string
    const sandbox: string
    var height: Option<nat>

    constructor (content: string)
      ensures this.content == content && sandbox == SandboxPolicy && height == None
    {
      this.content := content;
      sandbox := SandboxPolicy;
      height := None;
    }
  }

  /** The contents of a list of surfaces, which is all of them the view shows. */
  function Contents(surfaces: seq<Surface>): seq<string> {
    seq(|surfaces|, i requires 0 <= i < |surfaces| => surfaces[i].content)
  }

  /** The elements the script looks up once the document has loaded. */
  class Viewer {
    var loadingShown: bool
    var resultShown: bool
    var errorShown: bool
    var errorText: string
    var urlText: string
    var urlHref: string
    var titleText: string
    var surfaces: seq<Surface>
    var scrolls: nat

    function State(): ViewState
      reads this
    {
      ViewState(loadingShown, resultShown, errorShown, errorText,
                urlText, urlHref, titleText, Contents(surfaces), scrolls)
    }

    constructor ()
      ensures State() == Idle() && surfaces == []
    {
      loadingShown, resultShown, errorShown := false, false, false;
      errorText, urlText, urlHref, titleText := "", "", "", "";
      surfaces, scrolls := [], 0;
    }

    /** `smoothScrollToResults`: only the scheduling is modelled. */
    method ScheduleScroll()
      modifies this
      ensures State() == old(State()).(scrolls := old(scrolls) + 1)
      ensures surfaces == old(surfaces)
    {
      scrolls := scrolls + 1;
    }

    /** `showError`. */
    method ShowError(message: string)
      modifies this
      ensures State() == WithError(old(State()), message)
      ensures surfaces == old(surfaces)
    {
      errorText := WarningPrefix + message;
      errorShown := true;
      resultShown := false;
    }

    /** The submit handler up to the `fetch` call: the request it sends,
        if any. */
    method Submit(raw: string) returns (request: Option<Request>)
      modifies this
      ensures request == Issue(raw)
      ensures State() == AfterSubmit(old(State()), raw)
      ensures surfaces == old(surfaces)
    {
      ghost var before := State();
      var url := Trim(raw);
      if url == "" {
        assert AfterSubmit(before, raw) == WithError(before, InvalidUrlMessage);
        ShowError(InvalidUrlMessage);
        return None;
      }
      assert AfterSubmit(before, raw) == before.(loadingShown := true, resultShown := false,
                                                errorShown := false, scrolls := before.scrolls + 1);
      loadingShown := true;
      resultShown := false;
      errorShown := false;
      ScheduleScroll();
      request := Some(Request(url));
    }

    /** The submit handler once `request` is answered with `outcome`,
        through the `finally` block. On success the container is emptied and
        receives one new surface; the surface's `onload` step is
        `OnSurfaceLoad`. */
    method Complete(request: Request, outcome: Outcome)
      modifies this
      ensures State() == AfterComplete(old(State()), request, outcome)
      ensures outcome.Ok? ==>
        && |surfaces| == 1 && fresh(surfaces[0])
        && surfaces[0].sandbox == SandboxPolicy && surfaces[0].height == None
      ensures !outcome.Ok? ==> surfaces == old(surfaces)
    {
      match outcome {
        case Ok(title, content) =>
          urlText := request.url;
          urlHref := request.url;
          titleText := Or(title, NoTitle);
          var frame := new Surface(content);
          surfaces := [];
          surfaces := surfaces + [frame];
          loadingShown := false;
          resultShown := true;
          ScheduleScroll();
        case NotOk(error) =>
          ShowError(Or(error, FetchFailedMessage));
          ScheduleScroll();
        case Threw(message) =>
          ShowError(message);
          ScheduleScroll();
      }
      loadingShown := false;
      assert outcome.Ok? ==> Contents(surfaces) == [outcome.content];
    }

    /** The `onload` handler of `frame`: set its height to the height of its
        document and rewrite every anchor of that document in place. A
        failing read is swallowed before anything is written. Nothing the
        viewer shows changes either way. */
    method OnSurfaceLoad(frame: Surface, access: DocumentAccess, links: array<Link>)
      modifies frame, links
      ensures unchanged(this)
      ensures access.Unreadable? ==> unchanged(frame) && unchanged(links)
      ensures access.Readable? ==>
        frame.height == Some(access.scrollHeight) && links[..] == OpenExternally(old(links[..]))
    {
      if access.Unreadable? {
        return;
      }
      frame.height := Some(access.scrollHeight);
      for i := 0 to links.Length
        invariant frame.height == Some(access.scrollHeight)
        invariant forall k :: 0 <= k < i ==> links[k] == old(links[k]).(target := NewContext, rel := NoOpener)
        invariant forall k :: i <= k < links.Length ==> links[k] == old(links[k])
      {
        links[i] := links[i].(target := NewContext, rel := NoOpener);
      }
      assert forall k :: 0 <= k < links.Length ==> links[..][k] == OpenExternally(old(links[..]))[k];
    }

    /** The focus handler on the input. */
    method Focus()
      modifies this
      ensures State() == AfterFocus(old(State()))
      ensures surfaces == old(surfaces)
    {
      errorShown := false;
    }
  }

  /** The calls of `View.ResultAndErrorBothShown` made on a fresh viewer:
      a URL, then a blank input while the first request is outstanding,
      then the first request's success. */
  method ResultAndErrorShownTogether() returns (resultShown: bool, errorShown: bool)
    ensures resultShown && errorShown
  {
    var page := new Viewer();
    var request := page.Submit("https://example.org");
    TrimEmptyIff("https://example.org");
    assert !IsSpace('h');
    var none := page.Submit(" ");
    TrimEmptyIff(" ");
    assert IsSpace(' ');
    page.Complete(request.value, Ok(Some("Example"), "<p>example</p>"));
    resultShown, errorShown := page.resultShown, page.errorShown;
  }
}
