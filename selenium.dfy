/** The parts of the Selenium WebDriver interface that the scraper relies on,
    with the remote browser replaced by an abstract oracle.

    Every command sent to the browser is recorded, in order, in the driver's
    log; what the browser answers to a command may depend on everything that
    was sent before it (the page reacts to navigation, typing and clicks).
    The real-time polling of WebDriverWait is one AwaitCondition command whose
    answer is either the element or the exception raised at the deadline. */
module Selenium {

  datatype Option<+T> = None | Some(value: T)

  /** Python's "return a value or raise an exception", as a failure-compatible
      type so that `:-` propagates the exception to the caller unchanged. */
  datatype Result<+T, +E> = Success(value: T) | Failure(error: E) {
    predicate IsFailure() { Failure? }
    function PropagateFailure<U>(): Result<U, E> requires Failure? { Failure(error) }
    function Extract(): T requires Success? { value }
  }

  /** The exceptions that reach the modelled code. */
  datatype Exception =
    | TimeoutException(message: string)
    | NotImplementedError(message: string)
    | WebDriverException(message: string)  // any other error the remote end reports

  /** selenium.webdriver.common.by.By, the locator strategies the core uses. */
  datatype By = CssSelector | XPath | Name | Id

  datatype Locator = Locator(strategy: By, selector: string)

  /** The two expected_conditions the core waits for. */
  datatype Condition =
    | VisibilityOfElementLocated(locator: Locator)
    | PresenceOfElementLocated(locator: Locator)

  /** A reference to an element of the current page. */
  datatype Element = Element(id: nat)

  /** One command sent to the remote browser. */
  datatype Command =
    | Navigate(url: string)                              // driver.get(url)
    | AwaitCondition(maxWait: nat, condition: Condition) // WebDriverWait(driver, maxWait).until(condition)
    | FindAll(locator: Locator)                          // driver.find_elements_by_css_selector(...)
    | TypeKeys(target: Element, keys: string)            // element.send_keys(keys)
    | ClickOn(target: Element)                           // element.click()
    | RunScript(script: string, argument: Element)       // driver.execute_script(script, element)
    | ReadAttribute(target: Element, name: string)       // element.get_attribute(name)

  /** The browser's answers, each given the commands sent so far. `perform`
      answers the commands that return nothing (Navigate, TypeKeys, ClickOn,
      RunScript); get_attribute answers None for an absent attribute. */
  datatype Browser = Browser(
    until: (seq<Command>, nat, Condition) -> Result<Element, Exception>,
    findAll: (seq<Command>, Locator) -> Result<seq<Element>, Exception>,
    perform: (seq<Command>, Command) -> Result<(), Exception>,
    attribute: (seq<Command>, Element, string) -> Result<Option<string>, Exception>)

  /** What a piece of the workflow did: its outcome and the whole command log
      after it. */
  datatype Run<+T> = Run(outcome: Result<T, Exception>, log: seq<Command>)

  /** The run of one command that returns nothing. */
  function Perform(b: Browser, h: seq<Command>, c: Command): Run<()>
  {
    Run(b.perform(h, c), h + [c])
  }

  /** The run of one wait. */
  function Await(b: Browser, h: seq<Command>, maxWait: nat, c: Condition): Run<Element>
  {
    Run(b.until(h, maxWait, c), h + [AwaitCondition(maxWait, c)])
  }

  /** The run of one find_elements call. */
  function FindAllRun(b: Browser, h: seq<Command>, l: Locator): Run<seq<Element>>
  {
    Run(b.findAll(h, l), h + [FindAll(l)])
  }

  /** The run of one get_attribute call. */
  function AttributeRun(b: Browser, h: seq<Command>, e: Element, name: string): Run<Option<string>>
  {
    Run(b.attribute(h, e, name), h + [ReadAttribute(e, name)])
  }

  /** A connected WebDriver session. */
  class Driver {
    var log: seq<Command>
    const browser: Browser

    constructor (browser: Browser)
      ensures this.browser == browser && log == []
    {
      this.browser := browser;
      log := [];
    }

    method Get(url: string) returns (r: Result<(), Exception>)
      modifies this
      ensures Run(r, log) == Perform(browser, old(log), Navigate(url))
    {
      r := browser.perform(log, Navigate(url));
      log := log + [Navigate(url)];
    }

    method Until(maxWait: nat, condition: Condition) returns (r: Result<Element, Exception>)
      modifies this
      ensures Run(r, log) == Await(browser, old(log), maxWait, condition)
    {
      r := browser.until(log, maxWait, condition);
      log := log + [AwaitCondition(maxWait, condition)];
    }

    method FindElements(locator: Locator) returns (r: Result<seq<Element>, Exception>)
      modifies this
      ensures Run(r, log) == FindAllRun(browser, old(log), locator)
    {
      r := browser.findAll(log, locator);
      log := log + [FindAll(locator)];
    }

    method SendKeys(target: Element, keys: string) returns (r: Result<(), Exception>)
      modifies this
      ensures Run(r, log) == Perform(browser, old(log), TypeKeys(target, keys))
    {
      r := browser.perform(log, TypeKeys(target, keys));
      log := log + [TypeKeys(target, keys)];
    }

    method Click(target: Element) returns (r: Result<(), Exception>)
      modifies this
      ensures Run(r, log) == Perform(browser, old(log), ClickOn(target))
    {
      r := browser.perform(log, ClickOn(target));
      log := log + [ClickOn(target)];
    }

    method ExecuteScript(script: string, argument: Element) returns (r: Result<(), Exception>)
      modifies this
      ensures Run(r, log) == Perform(browser, old(log), RunScript(script, argument))
    {
      r := browser.perform(log, RunScript(script, argument));
      log := log + [RunScript(script, argument)];
    }

    method GetAttribute(target: Element, name: string) returns (r: Result<Option<string>, Exception>)
      modifies this
      ensures Run(r, log) == AttributeRun(browser, old(log), target, name)
    {
      r := browser.attribute(log, target, name);
      log := log + [ReadAttribute(target, name)];
    }
  }
}
