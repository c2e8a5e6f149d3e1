/** teams.py: logging in to Microsoft Teams and copying the share link of
    every recording on a team's recordings page. */
module Teams {
  import opened Selenium
  import Core

  const TeamsUrl: string := "https://teams.microsoft.com"

  /** CSS selector of the per-recording "three dots" menu buttons. */
  const ShowActions: string := "button[title='Show actions']"

  /** CSS selector of the read-only box that shows a recording's link. */
  const UrlBox: string := "input[aria-label='Copy link']"

  /** What the loop body waits for, in order. */
  const CopyLinkShown: Condition := VisibilityOfElementLocated(Locator(XPath, Core.TextSelector("Copy link")))
  const UrlBoxShown: Condition := VisibilityOfElementLocated(Locator(CssSelector, UrlBox))
  const CopyButtonShown: Condition := VisibilityOfElementLocated(Locator(XPath, Core.TextSelector("Copy", "button")))

  /** Passes the exception of a failed run on, keeping its log. */
  function Abort<T, U>(r: Run<T>): Run<U>
    requires r.outcome.Failure?
  {
    Run(Failure(r.outcome.error), r.log)
  }

  // ---------------------------------------------------------------------
  // Running fallible steps one after another

  /** Runs `step` on each of `xs` in order, threading the command log and
      collecting the results; the first exception ends the run and nothing of
      what was collected is returned. */
  function Sequence<X, Y>(step: (seq<Command>, X) -> Run<Y>, h: seq<Command>, xs: seq<X>): (r: Run<seq<Y>>)
    ensures r.outcome.Success? ==> |r.outcome.value| == |xs|
    decreases |xs|
  {
    if xs == [] then Run(Success([]), h)
    else
      var done := Sequence(step, h, xs[..|xs| - 1]);
      if done.outcome.Failure? then Abort(done)
      else
        var last := step(done.log, xs[|xs| - 1]);
        if last.outcome.Failure? then Abort(last)
        else Run(Success(done.outcome.value + [last.outcome.value]), last.log)
  }

  /** When the items before `xs[k]` went through and `xs[k]` fails, the whole
      run fails with that exception and stops there: no later item is run. */
  lemma {:induction false} SequenceStopsAt<X, Y>(step: (seq<Command>, X) -> Run<Y>, h: seq<Command>, xs: seq<X>, k: nat)
    requires k < |xs|
    requires Sequence(step, h, xs[..k]).outcome.Success?
    requires step(Sequence(step, h, xs[..k]).log, xs[k]).outcome.Failure?
    ensures Sequence(step, h, xs) == Abort(step(Sequence(step, h, xs[..k]).log, xs[k]))
    decreases |xs|
  {
    var ys := xs[..|xs| - 1];
    if k == |xs| - 1 {
      assert ys == xs[..k];
    } else {
      assert ys[..k] == xs[..k];
      assert ys[k] == xs[k];
      SequenceStopsAt(step, h, ys, k);
    }
  }

  /** A failed run failed at some item, after all earlier items went through,
      with that item's exception and log. */
  lemma {:induction false} SequenceFailsAt<X, Y>(step: (seq<Command>, X) -> Run<Y>, h: seq<Command>, xs: seq<X>)
    requires Sequence(step, h, xs).outcome.Failure?
    ensures exists k ::
      && 0 <= k < |xs|
      && Sequence(step, h, xs[..k]).outcome.Success?
      && step(Sequence(step, h, xs[..k]).log, xs[k]).outcome.Failure?
      && Sequence(step, h, xs) == Abort(step(Sequence(step, h, xs[..k]).log, xs[k]))
    decreases |xs|
  {
    var ys := xs[..|xs| - 1];
    var done := Sequence(step, h, ys);
    if done.outcome.Failure? {
      SequenceFailsAt(step, h, ys);
      var k :| 0 <= k < |ys| &&
        Sequence(step, h, ys[..k]).outcome.Success? &&
        step(Sequence(step, h, ys[..k]).log, ys[k]).outcome.Failure? &&
        done == Abort(step(Sequence(step, h, ys[..k]).log, ys[k]));
      assert ys[..k] == xs[..k];
      assert ys[k] == xs[k];
    } else {
      assert ys == xs[..|xs| - 1];
    }
  }

  /** A successful run has one result per item, in item order: the k-th
      result is what the k-th item gave when run after the first k items. */
  lemma {:induction false} SequenceSucceeds<X, Y>(step: (seq<Command>, X) -> Run<Y>, h: seq<Command>, xs: seq<X>)
    requires Sequence(step, h, xs).outcome.Success?
    ensures |Sequence(step, h, xs).outcome.value| == |xs|
    ensures forall k {:trigger xs[k]} :: 0 <= k < |xs| ==>
      Sequence(step, h, xs[..k]).outcome == Success(Sequence(step, h, xs).outcome.value[..k]) &&
      step(Sequence(step, h, xs[..k]).log, xs[k])
        == Run(Success(Sequence(step, h, xs).outcome.value[k]), Sequence(step, h, xs[..k + 1]).log)
    decreases |xs|
  {
    if xs != [] {
      var n := |xs|;
      var ys := xs[..n - 1];
      var vs := Sequence(step, h, xs).outcome.value;
      SequenceSucceeds(step, h, ys);
      var ws := Sequence(step, h, ys).outcome.value;
      assert vs == ws + [vs[n - 1]];
      forall k | 0 <= k < n
        ensures Sequence(step, h, xs[..k]).outcome == Success(vs[..k])
        ensures step(Sequence(step, h, xs[..k]).log, xs[k]) == Run(Success(vs[k]), Sequence(step, h, xs[..k + 1]).log)
      {
        if k < n - 1 {
          assert ys[..k] == xs[..k];
          assert ys[..k + 1] == xs[..k + 1];
          assert ys[k] == xs[k];
          assert ws[..k] == vs[..k];
        } else {
          assert xs[..k] == ys;
          assert xs[..k + 1] == xs;
          assert vs[..k] == ws;
        }
      }
    }
  }

  /** SequenceSucceeds at one item. */
  lemma SequenceSucceedsAt<X, Y>(step: (seq<Command>, X) -> Run<Y>, h: seq<Command>, xs: seq<X>, k: nat)
    requires Sequence(step, h, xs).outcome.Success?
    requires k < |xs|
    ensures |Sequence(step, h, xs).outcome.value| == |xs|
    ensures step(Sequence(step, h, xs[..k]).log, xs[k])
         == Run(Success(Sequence(step, h, xs).outcome.value[k]), Sequence(step, h, xs[..k + 1]).log)
  {
    SequenceSucceeds(step, h, xs);
  }

  /** The bookkeeping of one more item, as a loop over the items does it. */
  lemma SequenceExtends<X, Y>(step: (seq<Command>, X) -> Run<Y>, h: seq<Command>, xs: seq<X>, k: nat)
    requires k < |xs|
    requires Sequence(step, h, xs[..k]).outcome.Success?
    ensures step(Sequence(step, h, xs[..k]).log, xs[k]).outcome.Success? ==>
      Sequence(step, h, xs[..k + 1])
        == Run(Success(Sequence(step, h, xs[..k]).outcome.value + [step(Sequence(step, h, xs[..k]).log, xs[k]).outcome.value]),
               step(Sequence(step, h, xs[..k]).log, xs[k]).log)
    ensures step(Sequence(step, h, xs[..k]).log, xs[k]).outcome.Failure? ==>
      Sequence(step, h, xs) == Abort(step(Sequence(step, h, xs[..k]).log, xs[k]))
  {
    assert xs[..k + 1][..k] == xs[..k];
    if step(Sequence(step, h, xs[..k]).log, xs[k]).outcome.Failure? {
      SequenceStopsAt(step, h, xs, k);
    }
  }

  // ---------------------------------------------------------------------
  // login

  /** What a login step does with the element it waited for. */
  datatype StepAction = Type(keys: string) | Press | WaitOnly

  /** One `core.wait_for_element(driver, selector, strategy)` line of login,
      with what it then does to the element. */
  datatype LoginStep = LoginStep(selector: string, strategy: By, action: StepAction)

  /** The seven waits of login, in source order. */
  function LoginSteps(user: string, passwd: string): seq<LoginStep>
  {
    [ LoginStep("loginfmt", Name, Type(user)),
      LoginStep("idSIButton9", Id, Press),
      LoginStep("passwd", Name, Type(passwd)),
      LoginStep("idSIButton9", Id, Press),
      LoginStep("KmsiCheckboxField", Id, Press),
      LoginStep("idSIButton9", Id, Press),
      LoginStep("div.teams-grid-header", CssSelector, WaitOnly) ]
  }

  /** The condition a login step waits for: visibility, the default. */
  function StepCondition(s: LoginStep): Condition
  {
    VisibilityOfElementLocated(Locator(s.strategy, s.selector))
  }

  /** One login step: wait for the element to be visible, then act on it. */
  function StepRun(b: Browser, h: seq<Command>, s: LoginStep): (r: Run<()>)
    ensures |h| < |r.log| <= |h| + 2 && r.log[..|h| + 1] == h + [AwaitCondition(Core.MaxWait, StepCondition(s))]
    // a failed wait ends the step: nothing is done to any element
    ensures b.until(h, Core.MaxWait, StepCondition(s)).Failure? ==>
      r == Run(Failure(b.until(h, Core.MaxWait, StepCondition(s)).error), h + [AwaitCondition(Core.MaxWait, StepCondition(s))])
    // otherwise the action goes to the element the wait found
    ensures b.until(h, Core.MaxWait, StepCondition(s)).Success? ==>
      var e := b.until(h, Core.MaxWait, StepCondition(s)).value;
      match s.action
      case Type(keys) => r == Perform(b, h + [AwaitCondition(Core.MaxWait, StepCondition(s))], TypeKeys(e, keys))
      case Press => r == Perform(b, h + [AwaitCondition(Core.MaxWait, StepCondition(s))], ClickOn(e))
      case WaitOnly => r == Run(Success(()), h + [AwaitCondition(Core.MaxWait, StepCondition(s))])
  {
    var found := Core.WaitRun(b, h, s.selector, s.strategy, "visibility", Core.MaxWait);
    if found.outcome.Failure? then Abort(found)
    else
      match s.action
      case Type(keys) => Perform(b, found.log, TypeKeys(found.outcome.value, keys))
      case Press => Perform(b, found.log, ClickOn(found.outcome.value))
      case WaitOnly => Run(Success(()), found.log)
  }

  /** The run of login up to and including its k-th step, from the log `h`
      before login: step 0 opens the Teams page, step k > 0 is the (k-1)-th
      wait of LoginSteps; the first exception ends the run. */
  function LoginThrough(b: Browser, h: seq<Command>, user: string, passwd: string, k: nat): (r: Run<()>)
    requires k <= 7
    // the page is opened first; each step sends one or two commands
    ensures |h| < |r.log| <= |h| + 1 + 2 * k && r.log[..|h| + 1] == h + [Navigate(TeamsUrl)]
    // when every step went through, each of the first six sent its wait and
    // its action, the seventh only its wait
    ensures r.outcome.Success? ==> |r.log| == |h| + 1 + 2 * k - (if k == 7 then 1 else 0)
    decreases k
  {
    if k == 0 then Perform(b, h, Navigate(TeamsUrl))
    else
      var before := LoginThrough(b, h, user, passwd, k - 1);
      if before.outcome.Failure? then before
      else StepRun(b, before.log, LoginSteps(user, passwd)[k - 1])
  }

  /** What login does: open the Teams page, then the seven steps. */
  function LoginRun(b: Browser, h: seq<Command>, user: string, passwd: string): (r: Run<()>)
    ensures |h| < |r.log| && r.log[..|h| + 1] == h + [Navigate(TeamsUrl)]
    ensures r.outcome.Success? ==> |r.log| == |h| + 14
  {
    LoginThrough(b, h, user, passwd, 7)
  }

  /** login: returns the driver it was given, or raises the first exception. */
  method Login(d: Driver, user: string, passwd: string) returns (r: Result<Driver, Exception>)
    modifies d
    ensures d.log == LoginRun(d.browser, old(d.log), user, passwd).log
    ensures r.Success? <==> LoginRun(d.browser, old(d.log), user, passwd).outcome.Success?
    ensures r.Success? ==> r.value == d
    ensures r.Failure? ==> r.error == LoginRun(d.browser, old(d.log), user, passwd).outcome.error
  {
    ghost var h := d.log;
    LoginFailureIsFinal(d.browser, h, user, passwd, 0);
    var _ :- d.Get(TeamsUrl);
    // Username step
    LoginFailureIsFinal(d.browser, h, user, passwd, 1);
    var _ :- LoginStepOn(d, LoginStep("loginfmt", Name, Type(user)));
    LoginFailureIsFinal(d.browser, h, user, passwd, 2);
    var _ :- LoginStepOn(d, LoginStep("idSIButton9", Id, Press));
    // Passwd step
    LoginFailureIsFinal(d.browser, h, user, passwd, 3);
    var _ :- LoginStepOn(d, LoginStep("passwd", Name, Type(passwd)));
    LoginFailureIsFinal(d.browser, h, user, passwd, 4);
    var _ :- LoginStepOn(d, LoginStep("idSIButton9", Id, Press));
    // Save credentials step
    LoginFailureIsFinal(d.browser, h, user, passwd, 5);
    var _ :- LoginStepOn(d, LoginStep("KmsiCheckboxField", Id, Press));
    LoginFailureIsFinal(d.browser, h, user, passwd, 6);
    var _ :- LoginStepOn(d, LoginStep("idSIButton9", Id, Press));
    // Waiting for full web app load to complete
    var _ :- LoginStepOn(d, LoginStep("div.teams-grid-header", CssSelector, WaitOnly));
    return Success(d);
  }

  /** One line of login: `core.wait_for_element(driver, selector, strategy)`
      followed by `.send_keys(keys)`, `.click()` or nothing. */
  method LoginStepOn(d: Driver, s: LoginStep) returns (r: Result<(), Exception>)
    modifies d
    ensures Run(r, d.log) == StepRun(d.browser, old(d.log), s)
  {
    var found :- Core.WaitForElement(d, s.selector, s.strategy);
    match s.action
    case Type(keys) => r := d.SendKeys(found, keys);
    case Press => r := d.Click(found);
    case WaitOnly => r := Success(());
  }

  /** The first exception is final: once a step of login fails, login fails
      with that exception and that log, and no later step is attempted. */
  lemma {:induction false} LoginFailureIsFinal(b: Browser, h: seq<Command>, user: string, passwd: string, k: nat)
    requires k <= 7
    ensures LoginThrough(b, h, user, passwd, k).outcome.Failure? ==>
      LoginRun(b, h, user, passwd) == LoginThrough(b, h, user, passwd, k)
    decreases 7 - k
  {
    if k < 7 {
      LoginFailureIsFinal(b, h, user, passwd, k + 1);
    }
  }

  /** Every step of a login that succeeds went through: the page was opened,
      and each of the seven waits found its element and ran its action on the
      log the steps before it left. */
  lemma LoginRanStep(b: Browser, h: seq<Command>, user: string, passwd: string, k: nat)
    requires 0 < k <= 7
    requires LoginRun(b, h, user, passwd).outcome.Success?
    ensures b.perform(h, Navigate(TeamsUrl)).Success?
    ensures LoginThrough(b, h, user, passwd, k - 1).outcome.Success?
    ensures StepRun(b, LoginThrough(b, h, user, passwd, k - 1).log, LoginSteps(user, passwd)[k - 1])
         == LoginThrough(b, h, user, passwd, k)
    ensures LoginThrough(b, h, user, passwd, k).outcome.Success?
  {
    LoginFailureIsFinal(b, h, user, passwd, 0);
    LoginFailureIsFinal(b, h, user, passwd, k - 1);
    LoginFailureIsFinal(b, h, user, passwd, k);
  }

  /** When step k's wait fails after the earlier steps went through, login
      raises that wait's exception and the log ends with that wait: nothing
      is done to any element afterwards. */
  lemma LoginStopsAtFailedWait(b: Browser, h: seq<Command>, user: string, passwd: string, k: nat)
    requires k < 7
    requires LoginThrough(b, h, user, passwd, k).outcome.Success?
    requires b.until(LoginThrough(b, h, user, passwd, k).log, Core.MaxWait, StepCondition(LoginSteps(user, passwd)[k])).Failure?
    ensures LoginRun(b, h, user, passwd)
         == Run(Failure(b.until(LoginThrough(b, h, user, passwd, k).log, Core.MaxWait, StepCondition(LoginSteps(user, passwd)[k])).error),
                LoginThrough(b, h, user, passwd, k).log + [AwaitCondition(Core.MaxWait, StepCondition(LoginSteps(user, passwd)[k]))])
  {
    LoginFailureIsFinal(b, h, user, passwd, k + 1);
  }

  // ---------------------------------------------------------------------
  // scrape_team_recordings_urls

  /** The `try` block that lists the menu buttons: any exception from the
      presence wait or from find_elements leaves the list empty. */
  function DiscoverRun(b: Browser, h: seq<Command>): (r: Run<seq<Element>>)
    ensures r.outcome.Success?
    ensures var present := PresenceOfElementLocated(Locator(CssSelector, ShowActions));
      if b.until(h, Core.MaxWait, present).Failure? then
        r == Run(Success([]), h + [AwaitCondition(Core.MaxWait, present)])
      else
        var found := b.findAll(h + [AwaitCondition(Core.MaxWait, present)], Locator(CssSelector, ShowActions));
        r.log == h + [AwaitCondition(Core.MaxWait, present), FindAll(Locator(CssSelector, ShowActions))] &&
        r.outcome.value == if found.Success? then found.value else []
  {
    var present := Core.WaitRun(b, h, ShowActions, CssSelector, "presence", Core.MaxWait);
    if present.outcome.Failure? then Run(Success([]), present.log)
    else
      var found := FindAllRun(b, present.log, Locator(CssSelector, ShowActions));
      Run(Success(if found.outcome.Success? then found.outcome.value else []), found.log)
  }

  // The log of a successful pass of the loop body after its first, third,
  // fourth and fifth command, and the link box it finds.

  function ItemLog1(h: seq<Command>, menuBtn: Element): seq<Command>
  {
    h + [RunScript(Core.JQueryClick, menuBtn)]
  }

  /** The menu was opened, "Copy link" was shown and clicked. */
  predicate ItemOpened(b: Browser, h: seq<Command>, menuBtn: Element)
  {
    && b.perform(h, RunScript(Core.JQueryClick, menuBtn)).Success?
    && b.until(ItemLog1(h, menuBtn), Core.MaxWait, CopyLinkShown).Success?
    && b.perform(ItemLog1(h, menuBtn) + [AwaitCondition(Core.MaxWait, CopyLinkShown)],
                 ClickOn(b.until(ItemLog1(h, menuBtn), Core.MaxWait, CopyLinkShown).value)).Success?
  }

  function ItemLog3(b: Browser, h: seq<Command>, menuBtn: Element): seq<Command>
    requires b.until(ItemLog1(h, menuBtn), Core.MaxWait, CopyLinkShown).Success?
  {
    ItemLog1(h, menuBtn) + [AwaitCondition(Core.MaxWait, CopyLinkShown)]
      + [ClickOn(b.until(ItemLog1(h, menuBtn), Core.MaxWait, CopyLinkShown).value)]
  }

  function ItemUrlBox(b: Browser, h: seq<Command>, menuBtn: Element): Element
    requires b.until(ItemLog1(h, menuBtn), Core.MaxWait, CopyLinkShown).Success?
    requires b.until(ItemLog3(b, h, menuBtn), Core.MaxWait, UrlBoxShown).Success?
  {
    b.until(ItemLog3(b, h, menuBtn), Core.MaxWait, UrlBoxShown).value
  }

  function ItemLog4(b: Browser, h: seq<Command>, menuBtn: Element): seq<Command>
    requires b.until(ItemLog1(h, menuBtn), Core.MaxWait, CopyLinkShown).Success?
  {
    ItemLog3(b, h, menuBtn) + [AwaitCondition(Core.MaxWait, UrlBoxShown)]
  }

  function ItemLog5(b: Browser, h: seq<Command>, menuBtn: Element): seq<Command>
    requires b.until(ItemLog1(h, menuBtn), Core.MaxWait, CopyLinkShown).Success?
    requires b.until(ItemLog3(b, h, menuBtn), Core.MaxWait, UrlBoxShown).Success?
  {
    ItemLog4(b, h, menuBtn) + [ReadAttribute(ItemUrlBox(b, h, menuBtn), "value")]
  }

  /** One pass of the loop body for one menu button: open its menu, open the
      link dialog, read the link, close the dialog. The first command that
      raises ends the pass with its exception, unchanged, and nothing after it
      is sent. */
  function ItemRun(b: Browser, h: seq<Command>, menuBtn: Element): (r: Run<Option<string>>)
    ensures |h| < |r.log| <= |h| + 7 && r.log[..|h|] == h
    // core.click_noninteractable_elm(driver, menu_btn)
    ensures b.perform(h, RunScript(Core.JQueryClick, menuBtn)).Failure? ==>
      r == Run(Failure(b.perform(h, RunScript(Core.JQueryClick, menuBtn)).error), ItemLog1(h, menuBtn))
    // core.wait_for_element_by_text(driver, 'Copy link')
    ensures b.perform(h, RunScript(Core.JQueryClick, menuBtn)).Success? &&
            b.until(ItemLog1(h, menuBtn), Core.MaxWait, CopyLinkShown).Failure? ==>
      r == Run(Failure(b.until(ItemLog1(h, menuBtn), Core.MaxWait, CopyLinkShown).error),
               ItemLog1(h, menuBtn) + [AwaitCondition(Core.MaxWait, CopyLinkShown)])
    // .click()
    ensures b.perform(h, RunScript(Core.JQueryClick, menuBtn)).Success? &&
            b.until(ItemLog1(h, menuBtn), Core.MaxWait, CopyLinkShown).Success? &&
            b.perform(ItemLog1(h, menuBtn) + [AwaitCondition(Core.MaxWait, CopyLinkShown)],
                      ClickOn(b.until(ItemLog1(h, menuBtn), Core.MaxWait, CopyLinkShown).value)).Failure? ==>
      r == Run(Failure(b.perform(ItemLog1(h, menuBtn) + [AwaitCondition(Core.MaxWait, CopyLinkShown)],
                                 ClickOn(b.until(ItemLog1(h, menuBtn), Core.MaxWait, CopyLinkShown).value)).error),
               ItemLog3(b, h, menuBtn))
    // on success the pass sent these seven commands, in this order, each of
    // them went through, and the link is the "value" attribute of the box
    // the dialog shows
    ensures r.outcome.Success? ==> ItemOpened(b, h, menuBtn)
    // core.wait_for_element(driver, UrlBox, By.CSS_SELECTOR)
    ensures ItemOpened(b, h, menuBtn) && b.until(ItemLog3(b, h, menuBtn), Core.MaxWait, UrlBoxShown).Failure? ==>
      r == Run(Failure(b.until(ItemLog3(b, h, menuBtn), Core.MaxWait, UrlBoxShown).error), ItemLog4(b, h, menuBtn))
    ensures r.outcome.Success? ==> b.until(ItemLog3(b, h, menuBtn), Core.MaxWait, UrlBoxShown).Success?
    // url_box.get_attribute('value')
    ensures ItemOpened(b, h, menuBtn) && b.until(ItemLog3(b, h, menuBtn), Core.MaxWait, UrlBoxShown).Success? &&
            b.attribute(ItemLog4(b, h, menuBtn), ItemUrlBox(b, h, menuBtn), "value").Failure? ==>
      r == Run(Failure(b.attribute(ItemLog4(b, h, menuBtn), ItemUrlBox(b, h, menuBtn), "value").error), ItemLog5(b, h, menuBtn))
    ensures r.outcome.Success? ==> b.attribute(ItemLog4(b, h, menuBtn), ItemUrlBox(b, h, menuBtn), "value").Success?
    // core.wait_for_element_by_text(driver, 'Copy', element='button')
    ensures ItemOpened(b, h, menuBtn) && b.until(ItemLog3(b, h, menuBtn), Core.MaxWait, UrlBoxShown).Success? &&
            b.attribute(ItemLog4(b, h, menuBtn), ItemUrlBox(b, h, menuBtn), "value").Success? &&
            b.until(ItemLog5(b, h, menuBtn), Core.MaxWait, CopyButtonShown).Failure? ==>
      r == Run(Failure(b.until(ItemLog5(b, h, menuBtn), Core.MaxWait, CopyButtonShown).error),
               ItemLog5(b, h, menuBtn) + [AwaitCondition(Core.MaxWait, CopyButtonShown)])
    ensures r.outcome.Success? ==> b.until(ItemLog5(b, h, menuBtn), Core.MaxWait, CopyButtonShown).Success?
    // .click(), which closes the dialog
    ensures ItemOpened(b, h, menuBtn) && b.until(ItemLog3(b, h, menuBtn), Core.MaxWait, UrlBoxShown).Success? &&
            b.attribute(ItemLog4(b, h, menuBtn), ItemUrlBox(b, h, menuBtn), "value").Success? &&
            b.until(ItemLog5(b, h, menuBtn), Core.MaxWait, CopyButtonShown).Success? ==>
      var closing := Perform(b, ItemLog5(b, h, menuBtn) + [AwaitCondition(Core.MaxWait, CopyButtonShown)],
                             ClickOn(b.until(ItemLog5(b, h, menuBtn), Core.MaxWait, CopyButtonShown).value));
      if closing.outcome.Failure? then r == Abort(closing)
      else r == Run(Success(b.attribute(ItemLog4(b, h, menuBtn), ItemUrlBox(b, h, menuBtn), "value").value), closing.log)
  {
    var menu := Perform(b, h, RunScript(Core.JQueryClick, menuBtn));
    if menu.outcome.Failure? then Abort(menu) else
    var copyLink := Core.WaitRun(b, menu.log, Core.TextSelector("Copy link"), XPath, "visibility", Core.MaxWait);
    if copyLink.outcome.Failure? then Abort(copyLink) else
    var dialog := Perform(b, copyLink.log, ClickOn(copyLink.outcome.value));
    if dialog.outcome.Failure? then Abort(dialog) else
    var urlBox := Core.WaitRun(b, dialog.log, UrlBox, CssSelector, "visibility", Core.MaxWait);
    if urlBox.outcome.Failure? then Abort(urlBox) else
    var videoUrl := AttributeRun(b, urlBox.log, urlBox.outcome.value, "value");
    if videoUrl.outcome.Failure? then Abort(videoUrl) else
    var copy := Core.WaitRun(b, videoUrl.log, Core.TextSelector("Copy", "button"), XPath, "visibility", Core.MaxWait);
    if copy.outcome.Failure? then Abort(copy) else
    var closed := Perform(b, copy.log, ClickOn(copy.outcome.value));
    if closed.outcome.Failure? then Abort(closed)
    else Run(Success(videoUrl.outcome.value), closed.log)
  }

  function ItemStep(b: Browser): (seq<Command>, Element) -> Run<Option<string>>
  {
    (h, menuBtn) => ItemRun(b, h, menuBtn)
  }

  /** What scrape_team_recordings_urls does: navigate, list the buttons, then
      the loop. */
  function ScrapeRun(b: Browser, h: seq<Command>, recordingsPageUrl: string): (r: Run<seq<Option<string>>>)
    // a failed navigation raises at once
    ensures b.perform(h, Navigate(recordingsPageUrl)).Failure? ==>
      r == Run(Failure(b.perform(h, Navigate(recordingsPageUrl)).error), h + [Navigate(recordingsPageUrl)])
    // a successful scrape has one entry per listed button
    ensures r.outcome.Success? ==> |r.outcome.value| == |DiscoverRun(b, h + [Navigate(recordingsPageUrl)]).outcome.value|
  {
    var page := Perform(b, h, Navigate(recordingsPageUrl));
    if page.outcome.Failure? then Abort(page)
    else
      var discovered := DiscoverRun(b, page.log);
      Sequence(ItemStep(b), discovered.log, discovered.outcome.value)
  }

  /** scrape_team_recordings_urls. */
  method ScrapeTeamRecordingsUrls(d: Driver, recordingsPageUrl: string) returns (r: Result<seq<Option<string>>, Exception>)
    modifies d
    ensures Run(r, d.log) == ScrapeRun(d.browser, old(d.log), recordingsPageUrl)
  {
    var _ :- d.Get(recordingsPageUrl);
    ghost var navigated := d.log;
    // Get all three-dots-menu buttons
    var menuBtns: seq<Element>;
    var present := Core.WaitForElement(d, ShowActions, CssSelector, "presence");
    if present.Success? {
      var found := d.FindElements(Locator(CssSelector, ShowActions));
      menuBtns := if found.Success? then found.value else [];
    } else {
      menuBtns := [];
    }
    assert Run(Success(menuBtns), d.log) == DiscoverRun(d.browser, navigated);
    ghost var start := d.log;
    // Scrape each video url
    var videoUrls: seq<Option<string>> := [];
    for i := 0 to |menuBtns|
      invariant Sequence(ItemStep(d.browser), start, menuBtns[..i]) == Run(Success(videoUrls), d.log)
    {
      SequenceExtends(ItemStep(d.browser), start, menuBtns, i);
      var menuBtn := menuBtns[i];
      // Open modal
      var _ :- Core.ClickNoninteractableElm(d, menuBtn);
      var copyLink :- Core.WaitForElementByText(d, "Copy link");
      var _ :- d.Click(copyLink);
      // Get url inside modal
      var urlBox :- Core.WaitForElement(d, UrlBox, CssSelector);
      var videoUrl :- d.GetAttribute(urlBox, "value");
      videoUrls := videoUrls + [videoUrl];
      // Close modal
      var copy :- Core.WaitForElementByText(d, "Copy", element := "button");
      var _ :- d.Click(copy);
    }
    assert menuBtns[..|menuBtns|] == menuBtns;
    return Success(videoUrls);
  }

  /** The run after navigating and listing the buttons. */
  function ScrapeLoopStart(b: Browser, h: seq<Command>, recordingsPageUrl: string): Run<seq<Element>>
  {
    DiscoverRun(b, h + [Navigate(recordingsPageUrl)])
  }

  /** One link per listed button, in the order the buttons were listed (a
      button listed twice gives two links): the k-th link is the "value"
      attribute read in the k-th pass, which opened the k-th button. */
  lemma ScrapeOneUrlPerButton(b: Browser, h: seq<Command>, recordingsPageUrl: string)
    requires ScrapeRun(b, h, recordingsPageUrl).outcome.Success?
    ensures var start := ScrapeLoopStart(b, h, recordingsPageUrl);
      var btns := start.outcome.value;
      var urls := ScrapeRun(b, h, recordingsPageUrl).outcome.value;
      |urls| == |btns| &&
      forall k :: 0 <= k < |btns| ==>
        ItemRun(b, Sequence(ItemStep(b), start.log, btns[..k]).log, btns[k]).outcome == Success(urls[k])
  {
    var start := ScrapeLoopStart(b, h, recordingsPageUrl);
    var btns := start.outcome.value;
    var run := Sequence(ItemStep(b), start.log, btns);
    assert ScrapeRun(b, h, recordingsPageUrl) == run;
    SequenceSucceeds(ItemStep(b), start.log, btns);
    forall k | 0 <= k < |btns|
      ensures ItemRun(b, Sequence(ItemStep(b), start.log, btns[..k]).log, btns[k]).outcome == Success(run.outcome.value[k])
    {
      assert ItemStep(b)(Sequence(ItemStep(b), start.log, btns[..k]).log, btns[k])
          == ItemRun(b, Sequence(ItemStep(b), start.log, btns[..k]).log, btns[k]);
    }
  }

  /** No buttons listed (the listing raised, or found none): the result is
      the empty list, not an error. */
  lemma ScrapeEmptyWithoutButtons(b: Browser, h: seq<Command>, recordingsPageUrl: string)
    requires b.perform(h, Navigate(recordingsPageUrl)).Success?
    requires ScrapeLoopStart(b, h, recordingsPageUrl).outcome.value == []
    ensures ScrapeRun(b, h, recordingsPageUrl) == Run(Success([]), ScrapeLoopStart(b, h, recordingsPageUrl).log)
  {
  }

  /** When the pass for button k raises, the whole scrape raises that
      exception with no partial list, and no later button is touched. */
  lemma ScrapeAbortsOnFailedItem(b: Browser, h: seq<Command>, recordingsPageUrl: string, k: nat)
    requires b.perform(h, Navigate(recordingsPageUrl)).Success?
    requires k < |ScrapeLoopStart(b, h, recordingsPageUrl).outcome.value|
    requires Sequence(ItemStep(b), ScrapeLoopStart(b, h, recordingsPageUrl).log,
                      ScrapeLoopStart(b, h, recordingsPageUrl).outcome.value[..k]).outcome.Success?
    requires ItemRun(b, Sequence(ItemStep(b), ScrapeLoopStart(b, h, recordingsPageUrl).log,
                                 ScrapeLoopStart(b, h, recordingsPageUrl).outcome.value[..k]).log,
                     ScrapeLoopStart(b, h, recordingsPageUrl).outcome.value[k]).outcome.Failure?
    ensures ScrapeRun(b, h, recordingsPageUrl)
         == Abort(ItemRun(b, Sequence(ItemStep(b), ScrapeLoopStart(b, h, recordingsPageUrl).log,
                                      ScrapeLoopStart(b, h, recordingsPageUrl).outcome.value[..k]).log,
                          ScrapeLoopStart(b, h, recordingsPageUrl).outcome.value[k]))
  {
    var start := ScrapeLoopStart(b, h, recordingsPageUrl);
    SequenceStopsAt(ItemStep(b), start.log, start.outcome.value, k);
  }
}
