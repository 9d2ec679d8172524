/**
 * `CurrentBrowser` (playwright/.../CurrentBrowser.kt): the single browser session of the
 * agent. Playwright's objects are opaque handles; every call into the driver is an input
 * saying whether it returned (and what) or threw (and with which message), and the
 * ghost log `calls` records the driver calls that act on the browser.
 */
module CurrentBrowser {
  import opened Wrappers
  import opened Text
  import opened BrowserResults

  /** An opaque Playwright object: the engine, a browser or a page. */
  type Handle = nat

  /** What the driver reports about the current page: its URL and its content. */
  datatype PageView = PageView(url: string, content: string)

  /** A Playwright locator: a page and a selector on it. */
  datatype Locator = Locator(page: Handle, selector: string)

  /** Driver calls that create, release or act on browser objects. */
  datatype DriverCall =
    | CreatePlaywright
    | Launch(playwright: Handle, headless: bool)
    | NewPage(browser: Handle)
    | Close(handle: Handle)
    | Navigate(page: Handle, url: string)
    | MouseClick(page: Handle, x: int, y: int)
    | LocatorClick(locator: Locator)
    | KeyboardType(page: Handle, text: string)

  const DefaultError := "Error: Unknown error"
  const BrowserStarted := "Success: Browser started"
  const BrowserClosed := "Success: Browser closed"
  const LinkOpened := "Success: Link opened"
  const SnapshotCaptured := "Success: Snapshot captured\n"
  const PageMissing := "Page is not initialized, use start browser before"
  const PageMissingForLink := "Page is not initialized, " + "use startBrowser before opening a link"
  const EmptySnapshot := "Failed to capture page snapshot: empty snapshot returned"
  const NoSnapshot := "You need to run the `getSnapshot` tool first."
  const BlankRef := "Element reference cannot be null or empty."
  const RefNotFound := "The ref you provided is not found in the snapshot, get new page state with `getSnapshot`"
  const BadRefFormat := "Invalid reference format. Expected format: [ref=eNUMBER]"

  /** The `Error: ` normalisation `executeSafely` applies to an exception message. */
  function Normalize(msg: string): (r: string)
    ensures HasOutcomePrefix(r)
    ensures HasOutcomePrefix(msg) ==> r == msg
    ensures !HasOutcomePrefix(msg) ==> r == "Error: " + msg
  {
    if !StartsWith(msg, "Error:") && !StartsWith(msg, "Warning:") && !StartsWith(msg, "Success:") then
      assert StartsWith("Error: " + msg, "Error:");
      "Error: " + msg
    else
      msg
  }

  /**
   * `executeSafely(defaultError, action)`: what the action returned passes through
   * untouched, whatever its prefix; an exception becomes its message, or `defaultError`
   * when the message is null, normalised to carry a protocol prefix.
   */
  function ExecuteSafely(defaultError: string, outcome: Act): (r: string)
    ensures outcome.Returned? ==> r == outcome.value
    ensures outcome.Threw? ==> HasOutcomePrefix(r)
    ensures outcome.Threw? && outcome.msg.Some? && HasOutcomePrefix(outcome.msg.value) ==>
              r == outcome.msg.value
    ensures outcome.Threw? && outcome.msg.Some? && !HasOutcomePrefix(outcome.msg.value) ==>
              r == "Error: " + outcome.msg.value
    ensures outcome == Threw(None) && HasOutcomePrefix(defaultError) ==> r == defaultError
  {
    match outcome
    case Returned(s) => s
    case Threw(m) => Normalize(m.GetOr(defaultError))
  }

  /**
   * Wrapping an action in `executeSafely` twice changes nothing: the outer wrapper
   * passes through what the inner one returns, and re-throwing the inner wrapper's
   * text would be left as it is.
   */
  lemma {:induction false} ExecuteSafelyNested(inner: string, outer: string, outcome: Act)
    ensures ExecuteSafely(outer, Returned(ExecuteSafely(inner, outcome))) == ExecuteSafely(inner, outcome)
    ensures outcome.Threw? ==>
              ExecuteSafely(outer, Threw(Some(ExecuteSafely(inner, outcome)))) == ExecuteSafely(inner, outcome)
  {
  }

  /** The element id inside a reference token: trimmed, then `[ref=` and `]` removed once. */
  function CleanRef(ref: string): string {
    RemoveSuffix(RemovePrefix(Trim(ref), "[ref="), "]")
  }

  /** The selector Playwright is given for an element id. */
  function Selector(id: string): string {
    "aria-ref=" + id
  }

  /** Cleaning the token `[ref=<id>]` gives back `<id>`, whatever `<id>` is. */
  lemma CleanRefOfToken(id: string)
    ensures CleanRef("[ref=" + id + "]") == id
  {
    var token := "[ref=" + id + "]";
    TrimKeepsTrimmed(token);
    assert StartsWith(token, "[ref=");
    assert token[5..] == id + "]";
    assert EndsWith(id + "]", "]");
  }

  /**
   * The validation chain of `toLocator`, before the page is consulted: the first check
   * that fails decides the message; when all pass, the result is the selector.
   */
  function CheckRef(lastSnapshot: Option<string>, ref: string): Result<string, string> {
    if lastSnapshot.None? then Err(NoSnapshot)
    else if IsBlank(ref) then Err(BlankRef)
    else if !Contains(lastSnapshot.value, ref) then Err(RefNotFound)
    else if IsBlank(CleanRef(ref)) then Err(BadRefFormat)
    else Ok(Selector(CleanRef(ref)))
  }

  /**
   * Each message of the chain is given exactly when its check is the first to fail (the
   * four messages are distinct), and the selector exactly when every check passes.
   */
  lemma CheckRefOutcomes(lastSnapshot: Option<string>, ref: string)
    ensures CheckRef(lastSnapshot, ref) == Err(NoSnapshot) <==> lastSnapshot.None?
    ensures CheckRef(lastSnapshot, ref) == Err(BlankRef) <==> lastSnapshot.Some? && IsBlank(ref)
    ensures CheckRef(lastSnapshot, ref) == Err(RefNotFound) <==>
              lastSnapshot.Some? && !IsBlank(ref) && !Contains(lastSnapshot.value, ref)
    ensures CheckRef(lastSnapshot, ref) == Err(BadRefFormat) <==>
              lastSnapshot.Some? && !IsBlank(ref) && Contains(lastSnapshot.value, ref) && IsBlank(CleanRef(ref))
    ensures CheckRef(lastSnapshot, ref).Ok? <==>
              lastSnapshot.Some? && !IsBlank(ref) && Contains(lastSnapshot.value, ref) && !IsBlank(CleanRef(ref))
    ensures CheckRef(lastSnapshot, ref).Ok? ==> CheckRef(lastSnapshot, ref).value == Selector(CleanRef(ref))
  {
  }

  /** A token `[ref=<id>]` found in the last snapshot, with a non-blank id, selects `aria-ref=<id>`. */
  lemma CheckRefOfToken(snapshot: string, id: string)
    requires Contains(snapshot, "[ref=" + id + "]")
    requires !IsBlank(id)
    ensures CheckRef(Some(snapshot), "[ref=" + id + "]") == Ok("aria-ref=" + id)
    ensures snapshot != ""
  {
    CleanRefOfToken(id);
    var token := "[ref=" + id + "]";
    assert !IsWhitespace(token[0]);
    var i :| OccursAt(snapshot, token, i);
    assert |snapshot| >= |token|;
  }

  /** What the `startBrowser` action does: the first driver call that throws decides. */
  function StartOutcome(create: Call<Handle>, launch: Call<Handle>, newPage: Call<Handle>): Act {
    if create.Threw? then Threw(create.msg)
    else if launch.Threw? then Threw(launch.msg)
    else if newPage.Threw? then Threw(newPage.msg)
    else Returned(BrowserStarted)
  }

  /**
   * `startBrowser` succeeds exactly when no driver call throws, and otherwise reports the
   * message of the first call that threw.
   */
  lemma StartOutcomeFirstThrow(create: Call<Handle>, launch: Call<Handle>, newPage: Call<Handle>)
    ensures StartOutcome(create, launch, newPage).Returned? <==>
              create.Returned? && launch.Returned? && newPage.Returned?
    ensures StartOutcome(create, launch, newPage).Returned? ==>
              StartOutcome(create, launch, newPage).value == BrowserStarted
    ensures create.Threw? ==> StartOutcome(create, launch, newPage) == Threw(create.msg)
    ensures create.Returned? && launch.Threw? ==> StartOutcome(create, launch, newPage) == Threw(launch.msg)
    ensures create.Returned? && launch.Returned? && newPage.Threw? ==>
              StartOutcome(create, launch, newPage) == Threw(newPage.msg)
  {
  }

  /**
   * What the `closeBrowser` action does. Each `close` runs in a `finally` of the one
   * before, so an exception thrown later replaces the one in flight: the LAST handle
   * whose close threw decides.
   */
  function CloseOutcome(page: Option<Handle>, pageClose: Attempt,
                        browser: Option<Handle>, browserClose: Attempt,
                        playwright: Option<Handle>, playwrightClose: Attempt): Act
  {
    if playwright.Some? && playwrightClose.Threw? then Threw(playwrightClose.msg)
    else if browser.Some? && browserClose.Threw? then Threw(browserClose.msg)
    else if page.Some? && pageClose.Threw? then Threw(pageClose.msg)
    else Returned(BrowserClosed)
  }

  /** The close calls made on the handles present, page first, engine last. */
  function CloseCalls(page: Option<Handle>, browser: Option<Handle>, playwright: Option<Handle>): seq<DriverCall> {
    (if page.Some? then [Close(page.value)] else [])
    + (if browser.Some? then [Close(browser.value)] else [])
    + (if playwright.Some? then [Close(playwright.value)] else [])
  }

  /** One close per present handle, in the order page, browser, engine. */
  lemma CloseCallsOrder(page: Option<Handle>, browser: Option<Handle>, playwright: Option<Handle>)
    ensures |CloseCalls(page, browser, playwright)| ==
              (if page.Some? then 1 else 0) + (if browser.Some? then 1 else 0) + (if playwright.Some? then 1 else 0)
    ensures forall c | c in CloseCalls(page, browser, playwright) :: c.Close?
    ensures page.Some? ==> CloseCalls(page, browser, playwright)[0] == Close(page.value)
    ensures playwright.Some? ==>
              CloseCalls(page, browser, playwright)[|CloseCalls(page, browser, playwright)| - 1] == Close(playwright.value)
    ensures page.Some? && browser.Some? && playwright.Some? ==>
              CloseCalls(page, browser, playwright) == [Close(page.value), Close(browser.value), Close(playwright.value)]
  {
  }

  /** The close answer succeeds exactly when no present handle's close threw. */
  lemma CloseOutcomeSucceeds(page: Option<Handle>, pageClose: Attempt,
                             browser: Option<Handle>, browserClose: Attempt,
                             playwright: Option<Handle>, playwrightClose: Attempt)
    ensures CloseOutcome(page, pageClose, browser, browserClose, playwright, playwrightClose).Returned? <==>
              !(page.Some? && pageClose.Threw?) && !(browser.Some? && browserClose.Threw?)
              && !(playwright.Some? && playwrightClose.Threw?)
  {
  }

  /** `closeBrowser` always answers with a protocol prefix, and succeeds when no close throws. */
  lemma CloseReportIsPrefixed(page: Option<Handle>, pageClose: Attempt,
                              browser: Option<Handle>, browserClose: Attempt,
                              playwright: Option<Handle>, playwrightClose: Attempt)
    ensures HasOutcomePrefix(ExecuteSafely(DefaultError,
              CloseOutcome(page, pageClose, browser, browserClose, playwright, playwrightClose)))
    ensures pageClose.Returned? && browserClose.Returned? && playwrightClose.Returned? ==>
              ExecuteSafely(DefaultError,
                CloseOutcome(page, pageClose, browser, browserClose, playwright, playwrightClose)) == BrowserClosed
  {
    assert StartsWith(BrowserClosed, "Success:");
  }

  /** What the `getSnapshot` action does with what the aria snapshot returned. */
  function SnapshotAct(capture: Call<string>): Act {
    match capture
    case Threw(m) => Threw(m)
    case Returned(s) => if s == "" then Threw(Some(EmptySnapshot)) else Returned(SnapshotCaptured + s)
  }

  /**
   * The snapshot action succeeds exactly on a non-empty capture, with the captured text
   * after the success prefix; an empty capture throws the empty-snapshot message, and a
   * thrown capture keeps its message.
   */
  lemma SnapshotActOutcomes(capture: Call<string>)
    ensures SnapshotAct(capture).Returned? <==> capture.Returned? && capture.value != ""
    ensures SnapshotAct(capture).Returned? ==> SnapshotAct(capture).value == SnapshotCaptured + capture.value
    ensures capture == Returned("") ==> SnapshotAct(capture) == Threw(Some(EmptySnapshot))
    ensures capture.Threw? ==> SnapshotAct(capture) == Threw(capture.msg)
  {
  }

  /** The browser session, `object CurrentBrowser`. */
  class Session {
    var playwright: Option<Handle>
    var browser: Option<Handle>
    var page: Option<Handle>
    var lastSnapshot: Option<string>
    var pageHashes: map<string, string>
    /** The driver calls made so far that act on browser objects. */
    ghost var calls: seq<DriverCall>
    /** The MD5 hex digest `hashOfPage` computes of a page's content; left uninterpreted. */
    const md5: string -> string

    constructor(md5: string -> string)
      ensures playwright == None && browser == None && page == None
      ensures lastSnapshot == None && pageHashes == map[] && calls == []
      ensures this.md5 == md5
    {
      playwright, browser, page := None, None, None;
      lastSnapshot := None;
      pageHashes := map[];
      calls := [];
      this.md5 := md5;
    }

    /** `isChanged(page)`: a page whose URL has no recorded hash is never changed. */
    function IsChanged(view: PageView): (r: bool)
      reads this
      ensures r ==> view.url in pageHashes
      ensures view.url in pageHashes ==> (r <==> pageHashes[view.url] != md5(view.content))
    {
      if view.url !in pageHashes then false else pageHashes[view.url] != md5(view.content)
    }

    /**
     * `startBrowser(headless)`. `Playwright.create()` runs every time, but the engine
     * handle is only set when none exists (compareAndSet from null); the browser and the
     * page are replaced by new ones.
     */
    method StartBrowser(headless: bool, create: Call<Handle>, launch: Call<Handle>, newPage: Call<Handle>)
      returns (r: string)
      modifies this`playwright, this`browser, this`page, this`calls
      ensures r == ExecuteSafely(DefaultError, StartOutcome(create, launch, newPage))
      ensures playwright ==
                if create.Returned? && old(playwright).None? then Some(create.value) else old(playwright)
      ensures browser == if create.Returned? && launch.Returned? then Some(launch.value) else old(browser)
      ensures page ==
                if create.Returned? && launch.Returned? && newPage.Returned? then Some(newPage.value)
                else old(page)
      ensures calls == old(calls) + [CreatePlaywright]
                + (if create.Returned? then [Launch(playwright.value, headless)] else [])
                + (if create.Returned? && launch.Returned? then [NewPage(launch.value)] else [])
    {
      calls := calls + [CreatePlaywright];
      if create.Threw? {
        r := ExecuteSafely(DefaultError, Threw(create.msg));
        return;
      }
      if playwright.None? {
        playwright := Some(create.value);
      }
      calls := calls + [Launch(playwright.value, headless)];
      if launch.Threw? {
        r := ExecuteSafely(DefaultError, Threw(launch.msg));
        return;
      }
      browser := Some(launch.value);
      calls := calls + [NewPage(launch.value)];
      if newPage.Threw? {
        r := ExecuteSafely(DefaultError, Threw(newPage.msg));
        return;
      }
      page := Some(newPage.value);
      r := ExecuteSafely(DefaultError, Returned(BrowserStarted));
    }

    /** `getPage()`: the page, after recording the hash of its content under its URL. */
    method GetPage(view: PageView) returns (res: BrowserResult<Handle>)
      modifies this`pageHashes
      ensures page.None? ==> res == Failure(PageMissing) && pageHashes == old(pageHashes)
      ensures page.Some? ==> res == Success(page) && pageHashes == old(pageHashes)[view.url := md5(view.content)]
      ensures page.Some? ==> !IsChanged(view)
    {
      if page.None? {
        return Failure(PageMissing);
      }
      pageHashes := pageHashes[view.url := md5(view.content)];
      res := Success(page);
    }

    /**
     * `closeBrowser()`: closes the page, the browser and the engine, each one that
     * exists, each in a `finally` of the one before, clearing each handle whatever its
     * close did. The last snapshot and the page hashes are kept.
     */
    method CloseBrowser(pageClose: Attempt, browserClose: Attempt, playwrightClose: Attempt) returns (r: string)
      modifies this`playwright, this`browser, this`page, this`calls
      ensures playwright == None && browser == None && page == None
      ensures calls == old(calls) + CloseCalls(old(page), old(browser), old(playwright))
      ensures r == ExecuteSafely(DefaultError,
                     CloseOutcome(old(page), pageClose, old(browser), browserClose, old(playwright), playwrightClose))
    {
      var inFlight: Option<Option<string>> := None;
      if page.Some? {
        calls := calls + [Close(page.value)];
        if pageClose.Threw? {
          inFlight := Some(pageClose.msg);
        }
        page := None;
      }
      if browser.Some? {
        calls := calls + [Close(browser.value)];
        if browserClose.Threw? {
          inFlight := Some(browserClose.msg);
        }
        browser := None;
      }
      if playwright.Some? {
        calls := calls + [Close(playwright.value)];
        if playwrightClose.Threw? {
          inFlight := Some(playwrightClose.msg);
        }
        playwright := None;
      }
      r := ExecuteSafely(DefaultError, if inFlight.Some? then Threw(inFlight.value) else Returned(BrowserClosed));
    }

    /** `openLink(url)`: navigates the page, if there is one. */
    method OpenLink(url: string, navigate: Attempt) returns (r: string)
      modifies this`calls
      ensures page.None? ==> r == "Error: " + PageMissingForLink && calls == old(calls)
      ensures page.Some? ==> calls == old(calls) + [Navigate(page.value, url)]
      ensures page.Some? ==>
                r == ExecuteSafely("Error: Failed to open link " + url,
                                   if navigate.Returned? then Returned(LinkOpened) else Threw(navigate.msg))
    {
      var defaultError := "Error: Failed to open link " + url;
      if page.None? {
        assert PageMissingForLink[0] == 'P';
        r := ExecuteSafely(defaultError, Threw(Some(PageMissingForLink)));
        return;
      }
      calls := calls + [Navigate(page.value, url)];
      r := ExecuteSafely(defaultError, if navigate.Returned? then Returned(LinkOpened) else Threw(navigate.msg));
    }

    /**
     * `getSnapshot()`: the aria snapshot of the page body; only a non-empty capture
     * becomes the last snapshot.
     */
    method GetSnapshot(view: PageView, capture: Call<string>) returns (r: string)
      modifies this`pageHashes, this`lastSnapshot
      ensures page.None? ==>
                r == PageMissing && pageHashes == old(pageHashes) && lastSnapshot == old(lastSnapshot)
      ensures page.Some? ==> pageHashes == old(pageHashes)[view.url := md5(view.content)]
      ensures page.Some? && capture.Returned? && capture.value != "" ==>
                r == SnapshotCaptured + capture.value && lastSnapshot == Some(capture.value)
      ensures page.Some? && capture == Returned("") ==>
                r == ActionErrorPrefix + EmptySnapshot && lastSnapshot == old(lastSnapshot)
      ensures page.Some? && capture.Threw? ==>
                r == ActionErrorPrefix + capture.msg.GetOr(UnknownError) && lastSnapshot == old(lastSnapshot)
    {
      var found := GetPage(view);
      var outcome := SnapshotAct(capture);
      if found.Success? && found.page.Some? && outcome.Returned? {
        lastSnapshot := Some(capture.value);
      }
      r := Execute(found, (_: Handle) => outcome);
    }

    /**
     * `toLocator(ref)`: the validation chain, then the page (which records its hash),
     * then the locator for `aria-ref=<id>`, which the driver may fail to create.
     */
    method ToLocator(ref: string, view: PageView, resolves: bool) returns (res: BrowserResult<Locator>)
      modifies this`pageHashes
      ensures CheckRef(lastSnapshot, ref).Err? ==>
                res == Failure(CheckRef(lastSnapshot, ref).error) && pageHashes == old(pageHashes)
      ensures CheckRef(lastSnapshot, ref).Ok? && page.None? ==>
                res == Failure("Failed to get page: " + PageMissing + ", start browser before")
                && pageHashes == old(pageHashes)
      ensures CheckRef(lastSnapshot, ref).Ok? && page.Some? ==>
                pageHashes == old(pageHashes)[view.url := md5(view.content)]
                && res == if resolves then Success(Some(Locator(page.value, CheckRef(lastSnapshot, ref).value)))
                          else Failure("Failed to create locator for reference: " + ref)
    {
      var checked := CheckRef(lastSnapshot, ref);
      if checked.Err? {
        return Failure(checked.error);
      }
      var found := GetPage(view);
      match found
      case Failure(e) =>
        res := Failure("Failed to get page: " + e + ", start browser before");
      case Success(p) =>
        if !resolves {
          res := Failure("Failed to create locator for reference: " + ref);
        } else {
          res := Success(Some(Locator(p.value, checked.value)));
        }
    }
  }
}
