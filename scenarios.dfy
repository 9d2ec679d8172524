/**
 * Sequences of session operations on a fresh `CurrentBrowser`, each ending in the answer
 * the source gives for it.
 */
module SessionScenarios {
  import opened Wrappers
  import opened Text
  import opened BrowserResults
  import opened CurrentBrowser

  /** Whatever starting did, after a close there is no page to open a link in. */
  method OpenLinkAfterClose(md5: string -> string, headless: bool,
                            create: Call<Handle>, launch: Call<Handle>, newPage: Call<Handle>,
                            pageClose: Attempt, browserClose: Attempt, playwrightClose: Attempt,
                            url: string, navigate: Attempt)
    returns (r: string)
    ensures r == "Error: " + PageMissingForLink
  {
    var s := new Session(md5);
    var started := s.StartBrowser(headless, create, launch, newPage);
    var closed := s.CloseBrowser(pageClose, browserClose, playwrightClose);
    r := s.OpenLink(url, navigate);
  }

  /** A fresh session refuses every reference until a snapshot was taken. */
  method LocateBeforeSnapshot(md5: string -> string, ref: string, view: PageView)
    returns (res: BrowserResult<Locator>)
    ensures res == Failure(NoSnapshot)
  {
    var s := new Session(md5);
    res := s.ToLocator(ref, view, true);
  }

  /** A fresh session, started with the given handles, that has taken `snapshot`. */
  method StartedWithSnapshot(md5: string -> string, engine: Handle, browser: Handle, page: Handle,
                             view: PageView, snapshot: string)
    returns (s: Session)
    requires snapshot != ""
    ensures fresh(s)
    ensures s.page == Some(page) && s.lastSnapshot == Some(snapshot)
  {
    s := new Session(md5);
    var started := s.StartBrowser(false, Returned(engine), Returned(browser), Returned(page));
    var captured := s.GetSnapshot(view, Returned(snapshot));
  }

  /** The same session after a close that threw nothing. */
  method ClosedAfterSnapshot(md5: string -> string, engine: Handle, browser: Handle, page: Handle,
                             view: PageView, snapshot: string)
    returns (s: Session)
    requires snapshot != ""
    ensures fresh(s)
    ensures s.page == None && s.lastSnapshot == Some(snapshot)
  {
    s := StartedWithSnapshot(md5, engine, browser, page, view, snapshot);
    var closed := s.CloseBrowser(Returned(()), Returned(()), Returned(()));
  }

  /** Locating a reference that passes every check, on a session whose page is `page`. */
  method LocateOn(s: Session, token: string, view: PageView, page: Handle, selector: string)
    returns (res: BrowserResult<Locator>)
    requires CheckRef(s.lastSnapshot, token) == Ok(selector)
    modifies s`pageHashes
    ensures s.page == Some(page) ==> res == Success(Some(Locator(page, selector)))
    ensures s.page == None ==> res == Failure("Failed to get page: " + PageMissing + ", start browser before")
  {
    res := s.ToLocator(token, view, true);
  }

  /** A token of the snapshot just taken selects the element by its id on the current page. */
  method LocateAfterSnapshot(md5: string -> string, engine: Handle, browser: Handle, page: Handle,
                             view: PageView, snapshot: string, id: string)
    returns (res: BrowserResult<Locator>)
    requires Contains(snapshot, "[ref=" + id + "]") && !IsBlank(id)
    ensures res == Success(Some(Locator(page, "aria-ref=" + id)))
  {
    var token := "[ref=" + id + "]";
    assert snapshot != "" by { CheckRefOfToken(snapshot, id); }
    var s := StartedWithSnapshot(md5, engine, browser, page, view, snapshot);
    assert CheckRef(s.lastSnapshot, token) == Ok("aria-ref=" + id) by { CheckRefOfToken(snapshot, id); }
    res := LocateOn(s, token, view, page, "aria-ref=" + id);
  }

  /**
   * Closing keeps the last snapshot, so after a close the same token passes every check
   * and fails only for want of a page.
   */
  method LocateAfterClose(md5: string -> string, engine: Handle, browser: Handle, page: Handle,
                          view: PageView, snapshot: string, id: string)
    returns (res: BrowserResult<Locator>)
    requires Contains(snapshot, "[ref=" + id + "]") && !IsBlank(id)
    ensures res == Failure("Failed to get page: " + PageMissing + ", start browser before")
  {
    var token := "[ref=" + id + "]";
    assert snapshot != "" by { CheckRefOfToken(snapshot, id); }
    var s := ClosedAfterSnapshot(md5, engine, browser, page, view, snapshot);
    assert CheckRef(s.lastSnapshot, token) == Ok("aria-ref=" + id) by { CheckRefOfToken(snapshot, id); }
    res := LocateOn(s, token, view, page, "aria-ref=" + id);
  }

  /**
   * When every close throws, all three are still attempted and all handles cleared, and
   * the engine's exception, thrown last, is the one reported. `log` is the session's
   * whole driver log: the start, then the three closes.
   */
  method CloseWhenEveryCloseThrows(md5: string -> string, engine: Handle, browser: Handle, page: Handle,
                                   pageError: string, browserError: string, engineError: string)
    returns (r: string, cleared: bool, ghost log: seq<DriverCall>)
    ensures r == ExecuteSafely(DefaultError, Threw(Some(engineError)))
    ensures cleared
    ensures log == [CreatePlaywright, Launch(engine, true), NewPage(browser),
                    Close(page), Close(browser), Close(engine)]
  {
    var s := new Session(md5);
    var started := s.StartBrowser(true, Returned(engine), Returned(browser), Returned(page));
    r := s.CloseBrowser(Threw(Some(pageError)), Threw(Some(browserError)), Threw(Some(engineError)));
    cleared := s.page.None? && s.browser.None? && s.playwright.None?;
    log := s.calls;
  }
}
