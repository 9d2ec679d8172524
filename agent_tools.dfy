/**
 * `PlaywrightAgentTools` (playwright/.../PlaywrightAgentTools.kt): the tools the model
 * calls. Each checks its own input first and answers without touching the session when
 * the input is bad; otherwise it delegates to the session through `executeSafely`.
 */
module AgentTools {
  import opened Wrappers
  import opened Text
  import opened BrowserResults
  import opened CurrentBrowser

  const InvalidCoordinates := "Error: Invalid coordinates - x and y must be non-negative"
  const EmptyRef := "Error: Element reference cannot be null or empty"
  const EmptyText := "Error: Text to type cannot be null or empty"
  const EmptyUrl := "Error: URL cannot be null or empty"
  const SchemeWarning := "Warning: URL should start with http://, https://, or file:// - attempting to navigate anyway"
  const NoKeyboard := "Keyboard interface is not available"

  function ClickedAt(x: int, y: int): string {
    "Success: Clicked at coordinates (" + IntToString(x) + ", " + IntToString(y) + ")"
  }

  function ClickFailedAt(x: int, y: int): string {
    "Error: Failed to click at coordinates (" + IntToString(x) + ", " + IntToString(y) + ")"
  }

  /** The schemes `navigateTo` accepts without a warning; the test is case-sensitive. */
  predicate HasKnownScheme(url: string) {
    StartsWith(url, "http://") || StartsWith(url, "https://") || StartsWith(url, "file://")
  }

  /**
   * The action `clickByRef` runs on a resolved locator: an invisible element is only
   * warned about, and anything the visibility check or the click throws is reported
   * with the reference.
   */
  function ClickByRefText(ref: string, visible: Call<bool>, click: Attempt): (r: string)
    ensures visible == Returned(false) ==> r == "Warning: Element " + ref + " is not visible, click may fail"
    ensures visible == Returned(true) && click.Returned? ==> r == "Success: Clicked on element " + ref
    ensures visible.Threw? ==> r == "Error: Failed to click on " + ref + " - " + visible.msg.GetOr(UnknownError)
    ensures visible == Returned(true) && click.Threw? ==>
              r == "Error: Failed to click on " + ref + " - " + click.msg.GetOr(UnknownError)
  {
    match visible
    case Threw(m) => "Error: Failed to click on " + ref + " - " + m.GetOr(UnknownError)
    case Returned(isVisible) =>
      if !isVisible then "Warning: Element " + ref + " is not visible, click may fail"
      else
        match click
        case Returned(_) => "Success: Clicked on element " + ref
        case Threw(m) => "Error: Failed to click on " + ref + " - " + m.GetOr(UnknownError)
  }

  /** The `closeBrowser` tool: the session's close, passed through. */
  method CloseBrowser(s: Session, pageClose: Attempt, browserClose: Attempt, playwrightClose: Attempt)
    returns (r: string)
    modifies s`playwright, s`browser, s`page, s`calls
    ensures s.playwright == None && s.browser == None && s.page == None
    ensures s.calls == old(s.calls) + CloseCalls(old(s.page), old(s.browser), old(s.playwright))
    ensures r == ExecuteSafely(DefaultError,
                   CloseOutcome(old(s.page), pageClose, old(s.browser), browserClose, old(s.playwright), playwrightClose))
  {
    var inner := s.CloseBrowser(pageClose, browserClose, playwrightClose);
    r := ExecuteSafely("Error: Failed to close browser", Returned(inner));
  }

  /** The `startBrowser` tool: the session's start, passed through. */
  method StartBrowser(s: Session, headless: bool, create: Call<Handle>, launch: Call<Handle>, newPage: Call<Handle>)
    returns (r: string)
    modifies s`playwright, s`browser, s`page, s`calls
    ensures r == ExecuteSafely(DefaultError, StartOutcome(create, launch, newPage))
    ensures s.playwright ==
              if create.Returned? && old(s.playwright).None? then Some(create.value) else old(s.playwright)
    ensures s.browser == if create.Returned? && launch.Returned? then Some(launch.value) else old(s.browser)
    ensures s.page ==
              if create.Returned? && launch.Returned? && newPage.Returned? then Some(newPage.value)
              else old(s.page)
    ensures s.calls == old(s.calls) + [CreatePlaywright]
              + (if create.Returned? then [Launch(s.playwright.value, headless)] else [])
              + (if create.Returned? && launch.Returned? then [NewPage(launch.value)] else [])
  {
    var inner := s.StartBrowser(headless, create, launch, newPage);
    r := ExecuteSafely("Error: Failed to start browser", Returned(inner));
  }

  /** The `getSnapshot` tool: the session's snapshot, passed through. */
  method GetSnapshot(s: Session, view: PageView, capture: Call<string>) returns (r: string)
    modifies s`pageHashes, s`lastSnapshot
    ensures s.page.None? ==> r == PageMissing && unchanged(s)
    ensures s.page.Some? ==> s.pageHashes == old(s.pageHashes)[view.url := s.md5(view.content)]
    ensures s.page.Some? && capture.Returned? && capture.value != "" ==>
              r == SnapshotCaptured + capture.value && s.lastSnapshot == Some(capture.value)
    ensures s.page.Some? && capture == Returned("") ==>
              r == ActionErrorPrefix + EmptySnapshot && s.lastSnapshot == old(s.lastSnapshot)
    ensures s.page.Some? && capture.Threw? ==>
              r == ActionErrorPrefix + capture.msg.GetOr(UnknownError) && s.lastSnapshot == old(s.lastSnapshot)
  {
    var inner := s.GetSnapshot(view, capture);
    r := ExecuteSafely("Error: Failed to get page snapshot", Returned(inner));
  }

  /** The `click(x, y)` tool. */
  method Click(s: Session, x: int, y: int, view: PageView, click: Attempt) returns (r: string)
    modifies s`pageHashes, s`calls
    ensures x < 0 || y < 0 ==> r == InvalidCoordinates && unchanged(s)
    ensures x >= 0 && y >= 0 && s.page.None? ==> r == PageMissing && unchanged(s)
    ensures x >= 0 && y >= 0 && s.page.Some? ==>
              && s.pageHashes == old(s.pageHashes)[view.url := s.md5(view.content)]
              && s.calls == old(s.calls) + [MouseClick(s.page.value, x, y)]
              && r == if click.Returned? then ClickedAt(x, y) else ActionErrorPrefix + click.msg.GetOr(UnknownError)
  {
    if x < 0 || y < 0 {
      return InvalidCoordinates;
    }
    var found := s.GetPage(view);
    if found.Success? && found.page.Some? {
      s.calls := s.calls + [MouseClick(found.page.value, x, y)];
    }
    var action: Act := if click.Returned? then Returned(ClickedAt(x, y)) else Threw(click.msg);
    r := ExecuteSafely(ClickFailedAt(x, y), Returned(Execute(found, (_: Handle) => action)));
  }

  /** The `clickByRef(ref)` tool. */
  method ClickByRef(s: Session, ref: string, view: PageView, resolves: bool, visible: Call<bool>, click: Attempt)
    returns (r: string)
    modifies s`pageHashes, s`calls
    ensures IsBlank(ref) ==> r == EmptyRef && s.pageHashes == old(s.pageHashes) && s.calls == old(s.calls)
    ensures !IsBlank(ref) && CheckRef(s.lastSnapshot, ref).Err? ==>
              && r == CheckRef(s.lastSnapshot, ref).error
              && s.pageHashes == old(s.pageHashes) && s.calls == old(s.calls)
    ensures !IsBlank(ref) && CheckRef(s.lastSnapshot, ref).Ok? && s.page.None? ==>
              && r == "Failed to get page: " + PageMissing + ", start browser before"
              && s.pageHashes == old(s.pageHashes) && s.calls == old(s.calls)
    ensures !IsBlank(ref) && CheckRef(s.lastSnapshot, ref).Ok? && s.page.Some? ==>
              && s.pageHashes == old(s.pageHashes)[view.url := s.md5(view.content)]
              && (!resolves ==> r == "Failed to create locator for reference: " + ref && s.calls == old(s.calls))
              && (resolves ==> r == ClickByRefText(ref, visible, click))
              && (resolves && visible == Returned(true) ==>
                    s.calls == old(s.calls) + [LocatorClick(Locator(s.page.value, CheckRef(s.lastSnapshot, ref).value))])
              && (resolves && visible != Returned(true) ==> s.calls == old(s.calls))
  {
    if IsBlank(ref) {
      return EmptyRef;
    }
    ghost var checked := CheckRef(s.lastSnapshot, ref);
    var found := s.ToLocator(ref, view, resolves);
    r := ClickFound(s, ref, found, visible, click);
  }

  /** The `execute` block of `clickByRef` on what `toLocator` found, inside `executeSafely`. */
  method ClickFound(s: Session, ref: string, found: BrowserResult<Locator>, visible: Call<bool>, click: Attempt)
    returns (r: string)
    modifies s`calls
    ensures found.Failure? ==> r == found.error && s.calls == old(s.calls)
    ensures found == Success(None) ==> r == NotInitialized && s.calls == old(s.calls)
    ensures found.Success? && found.page.Some? ==>
              && r == ClickByRefText(ref, visible, click)
              && s.calls == old(s.calls) + (if visible == Returned(true) then [LocatorClick(found.page.value)] else [])
  {
    if found.Success? && found.page.Some? && visible == Returned(true) {
      s.calls := s.calls + [LocatorClick(found.page.value)];
    }
    var action: Act := Returned(ClickByRefText(ref, visible, click));
    r := ExecuteSafely("Error: Failed to click on element with reference " + ref,
                       Returned(Execute(found, (_: Locator) => action)));
  }

  /** The `typeText(text)` tool: only the empty text is refused; blank text is typed. */
  method TypeText(s: Session, text: string, view: PageView, keyboard: bool, typing: Attempt) returns (r: string)
    modifies s`pageHashes, s`calls
    ensures text == "" ==> r == EmptyText && unchanged(s)
    ensures text != "" && s.page.None? ==> r == PageMissing && unchanged(s)
    ensures text != "" && s.page.Some? ==> s.pageHashes == old(s.pageHashes)[view.url := s.md5(view.content)]
    ensures text != "" && s.page.Some? && !keyboard ==>
              r == ActionErrorPrefix + NoKeyboard && s.calls == old(s.calls)
    ensures text != "" && s.page.Some? && keyboard ==>
              && s.calls == old(s.calls) + [KeyboardType(s.page.value, text)]
              && r == if typing.Returned? then "Success: Typed text \"" + text + "\""
                      else "Error: Failed to type text - " + typing.msg.GetOr(UnknownError)
  {
    if text == "" {
      return EmptyText;
    }
    var found := s.GetPage(view);
    if found.Success? && found.page.Some? && keyboard {
      s.calls := s.calls + [KeyboardType(found.page.value, text)];
    }
    var action: Act :=
      if !keyboard then Threw(Some(NoKeyboard))
      else if typing.Returned? then Returned("Success: Typed text \"" + text + "\"")
      else Returned("Error: Failed to type text - " + typing.msg.GetOr(UnknownError));
    r := ExecuteSafely("Error: Failed to type text: " + text, Returned(Execute(found, (_: Handle) => action)));
  }

  /**
   * The `navigateTo(url)` tool: a blank URL is an error and a URL without a known
   * scheme only gets a warning; in both cases nothing is navigated.
   */
  method NavigateTo(s: Session, url: string, navigate: Attempt) returns (r: string)
    modifies s`calls
    ensures IsBlank(url) ==> r == EmptyUrl && unchanged(s)
    ensures !IsBlank(url) && !HasKnownScheme(url) ==> r == SchemeWarning && unchanged(s)
    ensures !IsBlank(url) && HasKnownScheme(url) && s.page.None? ==>
              r == "Error: " + PageMissingForLink && unchanged(s)
    ensures !IsBlank(url) && HasKnownScheme(url) && s.page.Some? ==>
              && s.calls == old(s.calls) + [Navigate(s.page.value, url)]
              && r == ExecuteSafely("Error: Failed to open link " + url,
                                    if navigate.Returned? then Returned(LinkOpened) else Threw(navigate.msg))
  {
    if IsBlank(url) {
      return EmptyUrl;
    }
    if !StartsWith(url, "http://") && !StartsWith(url, "https://") && !StartsWith(url, "file://") {
      return SchemeWarning;
    }
    var inner := s.OpenLink(url, navigate);
    r := ExecuteSafely("Error: Failed to navigate to URL: " + url, Returned(inner));
  }
}
