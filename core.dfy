/** core.py: connecting to the remote browser, waiting for an element under
    one of two readiness strategies, the text-equality XPath builder, and the
    script-level click. */
module Core {
  import opened Selenium

  /** Default number of seconds a wait may take. */
  const MaxWait: nat := 10

  /** The jQuery snippet that click_noninteractable_elm runs on its element. */
  const JQueryClick: string := "$(arguments[0]).click();"

  // ---------------------------------------------------------------------
  // Connecting

  /** The outcome of one `webdriver.Remote(...)` attempt. The bare `except:`
      of the retry loop treats every exception alike. */
  datatype Connection = Refused(error: Exception) | Connected(driver: Driver)

  /** get_connected_driver: try `attempts` in order until one connects,
      sleeping one second after every failure. The source loops forever when no
      attempt ever connects; the model is given an outcome sequence that holds
      a success. Returns the driver, the number of attempts made and the
      durations slept. */
  method GetConnectedDriver(attempts: seq<Connection>) returns (driver: Driver, tries: nat, sleeps: seq<nat>)
    requires exists i :: 0 <= i < |attempts| && attempts[i].Connected?
    ensures 1 <= tries <= |attempts|
    ensures attempts[tries - 1] == Connected(driver)
    ensures forall j :: 0 <= j < tries - 1 ==> attempts[j].Refused?
    ensures |sleeps| == tries - 1
    ensures forall j :: 0 <= j < |sleeps| ==> sleeps[j] == 1
  {
    tries, sleeps := 0, [];
    while true
      invariant tries <= |attempts|
      invariant forall j :: 0 <= j < tries ==> attempts[j].Refused?
      invariant exists i :: tries <= i < |attempts| && attempts[i].Connected?
      invariant |sleeps| == tries
      invariant forall j :: 0 <= j < |sleeps| ==> sleeps[j] == 1
      decreases |attempts| - tries
    {
      var attempt := attempts[tries];
      tries := tries + 1;
      if attempt.Connected? {
        return attempt.driver, tries, sleeps;
      }
      sleeps := sleeps + [1];
    }
  }

  // ---------------------------------------------------------------------
  // Waiting

  /** The two search strategies wait_for_element accepts. */
  predicate IsSearchStrategy(searchStrategy: string)
  {
    searchStrategy == "visibility" || searchStrategy == "presence"
  }

  /** The search strategy a condition stands for. */
  function StrategyName(c: Condition): string
  {
    match c
    case VisibilityOfElementLocated(_) => "visibility"
    case PresenceOfElementLocated(_) => "presence"
  }

  function UnknownStrategyMessage(searchStrategy: string): string
  {
    "Search strategy must be visibility|presence, got " + searchStrategy
  }

  /** The branch of wait_for_element that picks the expected condition;
      an unknown strategy raises NotImplementedError, which the
      `except TimeoutException` clause does not catch. */
  function ReadinessCondition(locator: Locator, searchStrategy: string): (r: Result<Condition, Exception>)
    ensures r.Success? <==> IsSearchStrategy(searchStrategy)
    ensures r.Success? ==> r.value.locator == locator && StrategyName(r.value) == searchStrategy
    ensures r.Failure? ==> r.error == NotImplementedError(UnknownStrategyMessage(searchStrategy))
  {
    if searchStrategy == "visibility" then Success(VisibilityOfElementLocated(locator))
    else if searchStrategy == "presence" then Success(PresenceOfElementLocated(locator))
    else Failure(NotImplementedError(UnknownStrategyMessage(searchStrategy)))
  }

  /** What wait_for_element does, starting from the command log `h`. */
  function WaitRun(b: Browser, h: seq<Command>, selector: string, selectorStrategy: By,
                   searchStrategy: string, maxWait: nat): (r: Run<Element>)
    // an unknown strategy fails at once: nothing is sent and it is no timeout
    ensures !IsSearchStrategy(searchStrategy) ==>
      r == Run(Failure(NotImplementedError(UnknownStrategyMessage(searchStrategy))), h)
    // a known strategy sends exactly one wait, for the locator, bound and
    // condition asked for, and returns what it answers: a TimeoutException
    // comes back unchanged
    ensures searchStrategy == "visibility" ==>
      r == Await(b, h, maxWait, VisibilityOfElementLocated(Locator(selectorStrategy, selector)))
    ensures searchStrategy == "presence" ==>
      r == Await(b, h, maxWait, PresenceOfElementLocated(Locator(selectorStrategy, selector)))
  {
    match ReadinessCondition(Locator(selectorStrategy, selector), searchStrategy)
    case Failure(e) => Run(Failure(e), h)
    case Success(c) => Await(b, h, maxWait, c)
  }

  /** wait_for_element. */
  method WaitForElement(d: Driver, selector: string, selectorStrategy: By := CssSelector,
                        searchStrategy: string := "visibility", maxWait: nat := MaxWait)
    returns (r: Result<Element, Exception>)
    modifies d
    ensures Run(r, d.log) == WaitRun(d.browser, old(d.log), selector, selectorStrategy, searchStrategy, maxWait)
  {
    var condition := ReadinessCondition(Locator(selectorStrategy, selector), searchStrategy);
    if condition.Failure? {
      return Failure(condition.error);
    }
    // a TimeoutException from the wait is re-raised as it is
    r := d.Until(maxWait, condition.value);
  }

  // ---------------------------------------------------------------------
  // Text-equality selectors

  /** `sep.join(parts)`: the parts in order, `sep` between neighbours. It
      starts with the first part and ends with the last. */
  function Join(parts: seq<string>, sep: string): (r: string)
  {
    if |parts| == 0 then ""
    else if |parts| == 1 then parts[0]
    else parts[0] + sep + Join(parts[1..], sep)
  }

  /** A join starts with the first part and ends with the last one. */
  lemma {:induction false} JoinEnds(parts: seq<string>, sep: string)
    requires |parts| > 0
    ensures |parts[0]| <= |Join(parts, sep)| && Join(parts, sep)[..|parts[0]|] == parts[0]
    ensures |parts[|parts| - 1]| <= |Join(parts, sep)|
    ensures Join(parts, sep)[|Join(parts, sep)| - |parts[|parts| - 1]|..] == parts[|parts| - 1]
    decreases |parts|
  {
    if |parts| > 1 {
      JoinEnds(parts[1..], sep);
      var rest := Join(parts[1..], sep);
      assert Join(parts, sep) == parts[0] + (sep + rest);
      assert parts[1..][|parts[1..]| - 1] == parts[|parts| - 1];
    }
  }

  function TextClause(text: string): string
  {
    "normalize-space()='" + text + "'"
  }

  function ClassClause(classes: string): string
  {
    "@class='" + classes + "'"
  }

  /** The `selectors` list: the text clause, then the class clause if any. */
  function TextPredicates(text: string, classes: Option<string>): seq<string>
  {
    [TextClause(text)] + if classes.Some? then [ClassClause(classes.value)] else []
  }

  /** The XPath that wait_for_element_by_text waits for: the text sits
      verbatim between a prefix fixed by the tag and a suffix fixed by the
      class constraint. */
  function TextSelector(text: string, element: string := "*", classes: Option<string> := None): (r: string)
    ensures r == ("//" + element + "[normalize-space()='") + text + ClassSuffix(classes)
  {
    SelectorAssembly(text, element, classes);
    "//" + element + "[" + Join(TextPredicates(text, classes), " and ") + "]"
  }

  /** Joining the clauses and bracketing them puts the text between the
      fixed prefix and the suffix of the class constraint. */
  lemma SelectorAssembly(text: string, element: string, classes: Option<string>)
    ensures "//" + element + "[" + Join(TextPredicates(text, classes), " and ") + "]"
         == ("//" + element + "[normalize-space()='") + text + ClassSuffix(classes)
  {
    if classes.Some? {
      SelectorWithClassClause(text, element, classes.value);
    } else {
      var parts := TextPredicates(text, classes);
      assert Join(parts, " and ") == TextClause(text);
    }
  }

  lemma SelectorWithClassClause(text: string, element: string, classes: string)
    ensures "//" + element + "[" + Join(TextPredicates(text, Some(classes)), " and ") + "]"
         == ("//" + element + "[normalize-space()='") + text + ClassSuffix(Some(classes))
  {
    var parts := TextPredicates(text, Some(classes));
    assert parts[1..] == [ClassClause(classes)];
    assert Join(parts[1..], " and ") == ClassClause(classes);
    var joined := Join(parts, " and ");
    assert joined == TextClause(text) + " and " + ClassClause(classes);
    assert "//" + element + "[" + joined + "]"
        == "//" + element + "[normalize-space()='" + text + "' and @class='" + classes + "']";
  }

  /** wait_for_element_by_text: the same wait, on the XPath built above. */
  method WaitForElementByText(d: Driver, text: string, element: string := "*", classes: Option<string> := None,
                              searchStrategy: string := "visibility", maxWait: nat := MaxWait)
    returns (r: Result<Element, Exception>)
    modifies d
    ensures Run(r, d.log) == WaitRun(d.browser, old(d.log), TextSelector(text, element, classes), XPath, searchStrategy, maxWait)
  {
    var xpathSelector := TextSelector(text, element, classes);
    r := WaitForElement(d, xpathSelector, XPath, searchStrategy, maxWait);
  }

  /** With no class constraint the selector is the tag and the text clause. */
  lemma TextSelectorWithoutClasses(text: string, element: string)
    ensures TextSelector(text, element, None) == "//" + element + "[normalize-space()='" + text + "']"
  {
  }

  /** With a class constraint the text clause comes first, then " and ",
      then the exact class clause. */
  lemma TextSelectorWithClasses(text: string, element: string, classes: string)
    ensures TextSelector(text, element, Some(classes))
         == "//" + element + "[normalize-space()='" + text + "' and @class='" + classes + "']"
  {
    var parts := TextPredicates(text, Some(classes));
    assert parts[1..] == [ClassClause(classes)];
    assert Join(parts, " and ") == TextClause(text) + " and " + ClassClause(classes);
  }

  /** Without a tag every element matches; the predicate is closed by "]". */
  lemma TextSelectorDefaultElement(text: string, classes: Option<string>)
    ensures |TextSelector(text, classes := classes)| >= 5
    ensures TextSelector(text, classes := classes)[..4] == "//*["
    ensures TextSelector(text, classes := classes)[|TextSelector(text, classes := classes)| - 1] == ']'
  {
    if classes.Some? {
      TextSelectorWithClasses(text, "*", classes.value);
    } else {
      TextSelectorWithoutClasses(text, "*");
    }
  }

  /** For every tag the selector starts with "//" and ends with "]". */
  lemma TextSelectorBracketed(text: string, element: string, classes: Option<string>)
    ensures |TextSelector(text, element, classes)| >= |element| + 4
    ensures TextSelector(text, element, classes)[..2] == "//"
    ensures TextSelector(text, element, classes)[|TextSelector(text, element, classes)| - 1] == ']'
  {
    var s := TextSelector(text, element, classes);
    assert s == "//" + (element + "[normalize-space()='" + text + ClassSuffix(classes));
  }

  function ClassSuffix(classes: Option<string>): string
  {
    "'" + (if classes.Some? then " and @class='" + classes.value + "'" else "") + "]"
  }

  /** Reads back the text a selector for `element` and `classes` was built
      from: the characters between the fixed prefix and the fixed suffix. */
  function SelectedText(s: string, element: string, classes: Option<string>): Option<string>
  {
    var prefix := "//" + element + "[normalize-space()='";
    var suffix := ClassSuffix(classes);
    if |prefix| + |suffix| <= |s| && s[..|prefix|] == prefix && s[|s| - |suffix|..] == suffix
    then Some(s[|prefix|..|s| - |suffix|])
    else None
  }

  /** The text is inserted verbatim: it can be read back from the selector. */
  lemma SelectedTextRoundTrip(text: string, element: string, classes: Option<string>)
    ensures SelectedText(TextSelector(text, element, classes), element, classes) == Some(text)
  {
    var prefix := "//" + element + "[normalize-space()='";
    var suffix := ClassSuffix(classes);
    var s := TextSelector(text, element, classes);
    assert s == prefix + text + suffix;
    assert s[..|prefix|] == prefix;
    assert s[|s| - |suffix|..] == suffix;
    assert s[|prefix|..|s| - |suffix|] == text;
  }

  /** Every string SelectedText accepts is the selector for the text it reads. */
  lemma SelectedTextSound(s: string, element: string, classes: Option<string>, text: string)
    requires SelectedText(s, element, classes) == Some(text)
    ensures TextSelector(text, element, classes) == s
  {
    var prefix := "//" + element + "[normalize-space()='";
    var suffix := ClassSuffix(classes);
    assert s == s[..|prefix|] + s[|prefix|..|s| - |suffix|] + s[|s| - |suffix|..];
  }

  /** For a fixed tag and class constraint, different texts give different
      selectors. */
  lemma TextSelectorInjective(t1: string, t2: string, element: string, classes: Option<string>)
    requires TextSelector(t1, element, classes) == TextSelector(t2, element, classes)
    ensures t1 == t2
  {
    SelectedTextRoundTrip(t1, element, classes);
    SelectedTextRoundTrip(t2, element, classes);
  }

  /** Nothing is escaped: a text holding a quote can spell a class clause of
      its own, so it yields the same XPath as a genuine class constraint. */
  lemma UnescapedTextForgesClassClause()
    ensures TextSelector("Copy' and @class='btn") == TextSelector("Copy", classes := Some("btn"))
  {
    TextSelectorWithoutClasses("Copy' and @class='btn", "*");
    TextSelectorWithClasses("Copy", "*", "btn");
  }

  // ---------------------------------------------------------------------
  // Script-level click

  /** click_noninteractable_elm: one execute_script call with the jQuery snippet. */
  method ClickNoninteractableElm(d: Driver, element: Element) returns (r: Result<(), Exception>)
    modifies d
    ensures Run(r, d.log) == Perform(d.browser, old(d.log), RunScript(JQueryClick, element))
  {
    r := d.ExecuteScript(JQueryClick, element);
  }
}
