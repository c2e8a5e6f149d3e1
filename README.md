# Teams recordings scraper, modelled in Dafny

The scraper drives a remote Chrome through Selenium. It logs in to Microsoft
Teams with seven fixed waits. It then opens a team's recordings page and
copies the share link of every recording: for each "Show actions" menu
button it opens the "Copy link" dialog, reads the link box's `value`
attribute and closes the dialog again. A small helper module connects to
the browser with retries. It also waits for an element under a
"visibility" or "presence" readiness strategy, and builds text-equality
XPath selectors.

The model replaces the browser with an abstract oracle (`Selenium.Browser`).
The oracle answers each command given every command sent before it. A
`Selenium.Driver` object records every command it sends in its `log`, in
order. Each workflow is written twice:

- as a function that returns a `Run`, which is the outcome (a value or an
  exception) and the resulting command log;
- as a module-level method that takes a `Driver` and is written the way
  the source is written. Its `ensures` ties its result and the driver's new
  log to that function.

The properties are proved about the functions.

- `selenium.dfy`: the WebDriver surface the code uses (commands, conditions,
  exceptions, the driver object).
- `core.dfy`: `core.py`, covering the connection retry loop, the wait
  dispatch, the XPath builder and the script-level click.
- `teams.dfy`: `teams.py`, covering login and the scrape. It also holds a
  generic "run fallible steps in order, stop at the first exception"
  function (`Sequence`), which is the meaning of the scrape's `for` loop.

## Model

| member | source | states |
|---|---|---|
| Core.GetConnectedDriver | core.py:22-33 | Given outcomes that include a success, it returns the driver of the first successful attempt. `tries` is that attempt's position, every earlier attempt was refused, and there is exactly one sleep of 1 second per refusal. |
| Core.ReadinessCondition | core.py:64-74 | A condition is chosen exactly when the strategy is "visibility" or "presence". The condition is for the locator given and matches the strategy name. Any other strategy gives NotImplementedError with the source's message. |
| Core.WaitRun | core.py:64-77 | An unknown strategy fails with NotImplementedError, not a timeout, and sends nothing. "visibility" sends exactly one wait for the visibility condition on (strategy, selector) with the given max wait. "presence" sends exactly one for the presence condition. The wait's answer, including a TimeoutException, is returned unchanged. |
| Core.WaitForElement | core.py:36-77 | The method's answer and new log are those of WaitRun for the given arguments. The defaults are CSS selector, "visibility" and MaxWait (10). |
| Core.TextSelector | core.py:103-111 | The selector is the fixed prefix `//` + element + `[normalize-space()='`, then the text verbatim, then a suffix fixed by the class option: `']`, or `' and @class='` + classes + `']`. |
| Core.JoinEnds | core.py:109 | A `sep.join` of one or more parts starts with the first part and ends with the last. |
| Core.WaitForElementByText | core.py:80-117 | Delegates to wait_for_element with the built XPath, the XPath strategy, and the search strategy and max wait unchanged. |
| Core.TextSelectorWithoutClasses | core.py:104-111 | With no classes the selector is exactly `//` + element + `[normalize-space()='` + text + `']`. |
| Core.TextSelectorWithClasses | core.py:104-111 | With classes there are exactly two clauses: the text clause first, then " and ", then `@class='` + classes + `'`. |
| Core.TextSelectorDefaultElement | core.py:80-111 | With the default tag the selector starts with `//*[` and ends with `]`. |
| Core.TextSelectorBracketed | core.py:111 | For every tag the selector starts with `//` and ends with `]`. |
| Core.SelectedTextRoundTrip | core.py:104-111 | The text is inserted verbatim: reading the characters between the fixed prefix and suffix gives back exactly the text. |
| Core.SelectedTextSound | core.py:104-111 | Any string from which a text can be read back is the selector built from that text. |
| Core.TextSelectorInjective | core.py:104-111 | For a fixed tag and class constraint, different texts give different selectors. |
| Core.UnescapedTextForgesClassClause | core.py:104-111 | Without escaping, the text `Copy' and @class='btn` gives the same XPath as the text `Copy` with class `btn`. |
| Core.ClickNoninteractableElm | core.py:120-130 | Sends exactly one execute_script command, with the jQuery click snippet and the element, and returns its answer. |
| Selenium.Driver.Get | teams.py:15 | Appends one navigation to the log and returns the browser's answer to it. |
| Selenium.Driver.Until | core.py:67-72 | Appends one wait for the condition, with the max wait, and returns the element or the exception the browser answers. |
| Selenium.Driver.FindElements | teams.py:45 | Appends one find-all for the locator and returns the elements found or the exception. |
| Selenium.Driver.SendKeys | teams.py:17 | Appends one typing command for the element and keys. |
| Selenium.Driver.Click | teams.py:18 | Appends one click on the element. |
| Selenium.Driver.ExecuteScript | core.py:130 | Appends one script command with its argument. |
| Selenium.Driver.GetAttribute | teams.py:58 | Appends one attribute read and returns the attribute, or None if it is absent. |
| Teams.StepRun | teams.py:17-26 | One login line sends exactly one visibility wait (max wait 10) for its locator. A failed wait ends the step with that exception and nothing else is sent. Otherwise the step is exactly the typing or the click on the element found, with that command's answer (an exception ends the step unchanged), or a success with nothing more for the final wait. |
| Teams.LoginThrough | teams.py:15-26 | Login up to step k opens the page first and sends one or two commands per step. When every step so far went through, each of the first six sent its wait and its action, and the seventh only its wait. |
| Teams.LoginRun | teams.py:15-27 | The whole login starts by opening the Teams page. A successful login sends exactly 14 commands. |
| Teams.LoginStepOn | teams.py:17-26 | The method's answer and new log are those of StepRun. |
| Teams.Login | teams.py:10-28 | The log is login's run: opening the page, then the seven steps. Login succeeds exactly when that run does and then returns the same driver. Otherwise it raises the run's exception. |
| Teams.LoginFailureIsFinal | teams.py:15-28 | Once a step fails, login ends with that step's exception and log, so no later step is attempted. |
| Teams.LoginRanStep | teams.py:15-28 | In a successful login the page was opened, and every one of the seven steps succeeded, in order, each on the log the previous steps left. |
| Teams.LoginStopsAtFailedWait | teams.py:17-26 | If step k's wait fails after the earlier steps went through, login raises that wait's exception. Its log ends with that wait. |
| Teams.DiscoverRun | teams.py:43-47 | Listing the menu buttons never raises. If the presence wait fails, the list is empty and only that wait was sent. Otherwise exactly the wait and one find-all were sent, and the list is what find-all returned, or empty if it raised. |
| Teams.ItemRun | teams.py:54-62 | One pass sends between 1 and 7 commands after the log it started from, in this order: force-click the button, wait for and click "Copy link", wait for the link box, read its "value" attribute, wait for and click the "Copy" button. The first command that raises ends the pass with its exception, unchanged, and its log ends with that command. When all seven go through, the result is that attribute. |
| Teams.ScrapeRun | teams.py:39-64 | A failed navigation raises at once, with only the navigation sent. A successful scrape has one entry per listed button. |
| Teams.ScrapeTeamRecordingsUrls | teams.py:31-64 | The method's answer and new log are those of ScrapeRun: navigate, list the buttons, then one pass per button in order, stopping at the first exception. |
| Teams.ScrapeOneUrlPerButton | teams.py:51-59 | A successful scrape returns exactly one link per listed button, duplicates included. The k-th link is the result of the pass for the k-th button, run after the first k passes. |
| Teams.ScrapeEmptyWithoutButtons | teams.py:43-64 | When no button is listed the scrape returns the empty list, with no error. |
| Teams.ScrapeAbortsOnFailedItem | teams.py:51-64 | If the pass for button k raises, the scrape raises that exception with no partial list, and no later button is touched. |
| Teams.Sequence | teams.py:51-64 | Running fallible steps in order: a successful run has exactly one result per item. |
| Teams.SequenceStopsAt | teams.py:52-64 | If item k fails after the earlier items succeeded, the whole run is that failure and its log. |
| Teams.SequenceFailsAt | teams.py:52-64 | Every failed run failed at some item, after all earlier items went through, with that item's exception. |
| Teams.SequenceSucceeds | teams.py:52-64 | A successful run has one result per item, and the k-th result is what the k-th item gave after the first k. |
| Teams.SequenceSucceedsAt | teams.py:52-64 | The same, for one given item. |
| Teams.SequenceExtends | teams.py:52-64 | One more item either extends the results by its value and its log, or ends the whole run with its exception. |

## Left out

- Connecting to the browser: the hostname, the URL built from it and ChromeOptions are not modelled. Each `webdriver.Remote` attempt is an element of the outcome sequence given to `Core.GetConnectedDriver`.
- Core.GetConnectedDriver: the source loops forever when no attempt ever connects. The model requires a finite outcome sequence that contains a success.
- Sleeping: `time.sleep(1)` is modelled as a recorded duration of 1; real time is not modelled.
- The browser: page navigation, polling inside WebDriverWait, the visibility and presence geometry of the expected conditions, XPath and CSS evaluation and element identity are all answers of the abstract oracle. Only the command sequence is modelled.
- A wait that outlasts its bound is modelled as the browser answering a TimeoutException; how long the wait takes is not modelled.
- Logging calls have no effect and are left out.
- `ADDITIVE_DELAY` (teams.py:7) is never used and is left out.
- Wait arguments: `max_wait` is a natural number of seconds and `search_strategy` a string. The source accepts any value for both, but every call uses the default of 10 seconds and string literals.
- Exceptions are modelled by kind and message only. Any error the remote end reports is a WebDriverException.
