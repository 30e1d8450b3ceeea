/**
 * The tools the automation agent calls on the shared browser page, and the
 * process-wide list of step messages they push to.
 *
 * What the browser does with a request is outside the model: each page
 * operation is given the outcome it resolves to (done, or a rejection with an
 * error message), and the page records, as a ghost trace, which operations it
 * was asked to perform.
 */
module BrowserTools {
  import opened Wrappers
  import opened Text
  import opened PageSummary

  /** One entry of the action log: `{ step: ... }`. */
  datatype Message = Message(step: string)

  /** How an awaited page operation settles: resolved, or rejected with `err.message`. */
  datatype PageOutcome = Done | Failed(message: string)

  /** How a tool's `execute` settles: it returns a text, or the error it did not catch escapes. */
  datatype Completion = Returned(text: string) | Threw(message: string)

  datatype Direction = Up | Down

  /** The operations the tools ask of the page. */
  datatype PageRequest =
    | Evaluate(query: string)
    | Click(selector: string)
    | Fill(selector: string, text: string)
    | Goto(url: string, waitUntil: string)
    | Screenshot(path: string)
    | ScrollBy(x: int, y: int)

  // ---------------------------------------------------------------------------
  // The texts the tools log and return

  const RetrievedStep := "Retrieved simplified page content."

  function PageContentFailed(message: string): (r: string)
    ensures StartsWith(r, "Failed") && Contains(r, message)
  {
    ContainsSuffix("Failed to get page content: ", message);
    "Failed to get page content: " + message
  }

  function ClickedStep(selector: string): (r: string)
    ensures Contains(r, selector)
  {
    ContainsMiddle("Clicked on element with selector: \"", selector, "\"");
    "Clicked on element with selector: \"" + selector + "\""
  }

  function ClickedReply(selector: string): (r: string)
    ensures StartsWith(r, "Successfully") && Contains(r, selector)
  {
    ContainsMiddle("Successfully clicked on element: \"", selector, "\"");
    "Successfully clicked on element: \"" + selector + "\""
  }

  function ClickFailed(selector: string, message: string): (r: string)
    ensures StartsWith(r, "Failed") && Contains(r, selector) && Contains(r, message)
  {
    var r := "Failed to click on selector \"" + selector + "\": " + message;
    assert r == "Failed to click on selector \"" + selector + ("\": " + message);
    ContainsMiddle("Failed to click on selector \"", selector, "\": " + message);
    ContainsSuffix("Failed to click on selector \"" + selector + "\": ", message);
    r
  }

  function TypedStep(selector: string, text: string): (r: string)
    ensures Contains(r, selector) && Contains(r, text)
  {
    var r := "Typed \"" + text + "\" into element with selector \"" + selector + "\"";
    assert r == "Typed \"" + text + ("\" into element with selector \"" + selector + "\"");
    ContainsMiddle("Typed \"", text, "\" into element with selector \"" + selector + "\"");
    ContainsMiddle("Typed \"" + text + "\" into element with selector \"", selector, "\"");
    r
  }

  function TypedReply(selector: string): (r: string)
    ensures StartsWith(r, "Successfully") && Contains(r, selector)
  {
    ContainsMiddle("Successfully typed text into element: \"", selector, "\"");
    "Successfully typed text into element: \"" + selector + "\""
  }

  function TypeFailed(selector: string, message: string): (r: string)
    ensures StartsWith(r, "Failed") && Contains(r, selector) && Contains(r, message)
  {
    var r := "Failed to type into selector \"" + selector + "\": " + message;
    assert r == "Failed to type into selector \"" + selector + ("\": " + message);
    ContainsMiddle("Failed to type into selector \"", selector, "\": " + message);
    ContainsSuffix("Failed to type into selector \"" + selector + "\": ", message);
    r
  }

  /** Both the step logged and the text returned after a navigation (the source spells it "Mapsd"). */
  function NavigatedText(url: string): (r: string)
    ensures StartsWith(r, "Mapsd") && Contains(r, url)
  {
    ContainsSuffix("Mapsd to ", url);
    "Mapsd to " + url
  }

  function NavigateFailed(url: string, message: string): (r: string)
    ensures StartsWith(r, "Failed") && Contains(r, url) && Contains(r, message)
  {
    var r := "Failed to navigate to " + url + ": " + message;
    assert r == "Failed to navigate to " + url + (": " + message);
    ContainsMiddle("Failed to navigate to ", url, ": " + message);
    ContainsSuffix("Failed to navigate to " + url + ": ", message);
    r
  }

  /**
   * The agent can tell how a tool call went from its text alone: no success
   * text of click, type or navigate equals a failure text of the same tool,
   * and neither a page summary nor the empty-page sentinel equals the failure
   * text of `get_page_content`.
   */
  lemma RepliesTellOutcome(s1: string, s2: string, text: string, message: string, page: seq<Element>)
    ensures ClickedReply(s1) != ClickFailed(s2, message)
    ensures TypedReply(s1) != TypeFailed(s2, message)
    ensures NavigatedText(s1) != NavigateFailed(s2, message)
    ensures Summarize(page) != PageContentFailed(message)
  {
    assert ClickedReply(s1)[0] != ClickFailed(s2, message)[0];
    assert TypedReply(s1)[0] != TypeFailed(s2, message)[0];
    assert NavigatedText(s1)[0] != NavigateFailed(s2, message)[0];
    var summary := Summarize(page);
    var failed := PageContentFailed(message);
    assert failed[0] == 'F' by {
      assert failed[..6] == "Failed";
    }
    assert summary == Summary(Lines(Filter(MatchesQuery, page)));
    if summary == NoElements {
      assert summary[0] == 'N';
    } else {
      assert summary[..|Header|] == Header;
      assert summary[0] == Header[0] == 'H';
    }
  }

  /** `screenshot-${Date.now()}.png`. */
  function ScreenshotPath(now: nat): string {
    "screenshot-" + Decimal(now) + ".png"
  }

  /** Screenshots taken at different times get different file names. */
  lemma ScreenshotPathsDiffer(t1: nat, t2: nat)
    requires t1 != t2
    ensures ScreenshotPath(t1) != ScreenshotPath(t2)
  {
    if ScreenshotPath(t1) == ScreenshotPath(t2) {
      var p := ScreenshotPath(t1);
      assert p[11..|p| - 4] == Decimal(t1);
      assert ScreenshotPath(t2)[11..|p| - 4] == Decimal(t2);
      DecimalRoundTrip(t1);
      DecimalRoundTrip(t2);
    }
  }

  function ScreenshotStep(path: string): (r: string)
    ensures Contains(r, path)
  {
    ContainsSuffix("Screenshot saved to ", path);
    "Screenshot saved to " + path
  }

  function ScreenshotReply(path: string): (r: string)
    ensures Contains(r, path)
  {
    ContainsMiddle("Screenshot saved successfully to ", path, ".");
    "Screenshot saved successfully to " + path + "."
  }

  function DirectionName(direction: Direction): string {
    match direction
    case Up => "up"
    case Down => "down"
  }

  /** `direction === "down" ? amount : -amount`: the vertical offset handed to `window.scrollBy`. */
  function ScrollDelta(direction: Direction, amount: int): (delta: int)
    ensures delta == amount || delta == -amount
    ensures direction == Down ==> (delta > 0 <==> amount > 0)
    ensures direction == Up ==> (delta > 0 <==> amount < 0)
  {
    if direction == Down then amount else -amount
  }

  /** `Scrolled ${direction} by ${amount}px`: both the step logged and the text returned. */
  function ScrolledText(direction: Direction, amount: int): string {
    "Scrolled " + DirectionName(direction) + " by " + NumberText(amount) + "px"
  }

  /** The scroll text names the direction and the amount: different scrolls log different texts. */
  lemma ScrolledTextDiffers(d1: Direction, a1: int, d2: Direction, a2: int)
    requires ScrolledText(d1, a1) == ScrolledText(d2, a2)
    ensures d1 == d2 && a1 == a2
  {
    var t := ScrolledText(d1, a1);
    assert t[9] == DirectionName(d1)[0];
    assert ScrolledText(d2, a2)[9] == DirectionName(d2)[0];
    var start := 9 + |DirectionName(d1)| + 4;
    assert t[start..|t| - 2] == NumberText(a1);
    assert ScrolledText(d2, a2)[start..|t| - 2] == NumberText(a2);
    NumberTextRoundTrip(a1);
    NumberTextRoundTrip(a2);
  }

  // ---------------------------------------------------------------------------
  // State

  /** The module-level `messages` array, shared by every automation session of the process. */
  class MessageLog {
    var entries: seq<Message>

    constructor ()
      ensures entries == []
    {
      entries := [];
    }

    /** `messages.push(m)`. */
    method Push(m: Message)
      modifies this
      ensures entries == old(entries) + [m]
    {
      entries := entries + [m];
    }
  }

  /** The browser page the tools share; only the requests it receives are modelled. */
  class Page {
    ghost var requests: seq<PageRequest>

    constructor ()
      ensures requests == []
    {
      requests := [];
    }

    /** Sends `request` to the browser, which settles it with `outcome`. */
    method Perform(request: PageRequest, outcome: PageOutcome) returns (settled: PageOutcome)
      modifies this
      ensures settled == outcome
      ensures requests == old(requests) + [request]
    {
      requests := requests + [request];
      settled := outcome;
    }
  }

  /** The tools built by one call of `automation()`, bound to its page and to the shared log. */
  class Automation {
    const page: Page
    const messages: MessageLog

    constructor (messages: MessageLog)
      ensures this.messages == messages && fresh(page) && page.requests == []
    {
      this.messages := messages;
      page := new Page();
    }

    /**
     * `get_page_content`: evaluates the summary on the page. When evaluation
     * succeeds the step is logged, also when the summary is the sentinel;
     * when it throws, nothing is logged and the error text is returned.
     */
    method GetPageContent(evaluation: Result<seq<Element>, string>) returns (c: Completion)
      modifies page, messages
      ensures page.requests == old(page.requests) + [Evaluate(InteractiveQuery)]
      ensures evaluation.Success? ==>
        c == Returned(Summarize(evaluation.value))
        && messages.entries == old(messages.entries) + [Message(RetrievedStep)]
      ensures evaluation.Failure? ==>
        c == Returned(PageContentFailed(evaluation.error)) && messages.entries == old(messages.entries)
    {
      var settled := page.Perform(Evaluate(InteractiveQuery), if evaluation.Success? then Done else Failed(evaluation.error));
      if settled.Failed? {
        return Returned(PageContentFailed(settled.message));
      }
      var lines := Lines(Filter(MatchesQuery, evaluation.value));
      var summary := Join(lines, "\n");
      messages.Push(Message(RetrievedStep));
      if summary == "" {
        return Returned(NoElements);
      }
      return Returned(Header + summary);
    }

    /** `click_selector`: logs and reports success only when the click resolves. */
    method ClickSelector(selector: string, outcome: PageOutcome) returns (c: Completion)
      modifies page, messages
      ensures page.requests == old(page.requests) + [Click(selector)]
      ensures outcome.Done? ==>
        c == Returned(ClickedReply(selector))
        && messages.entries == old(messages.entries) + [Message(ClickedStep(selector))]
      ensures outcome.Failed? ==>
        c == Returned(ClickFailed(selector, outcome.message)) && messages.entries == old(messages.entries)
    {
      var settled := page.Perform(Click(selector), outcome);
      if settled.Failed? {
        return Returned(ClickFailed(selector, settled.message));
      }
      messages.Push(Message(ClickedStep(selector)));
      return Returned(ClickedReply(selector));
    }

    /** `type_in_selector`: fills the element; logs and reports success only when the fill resolves. */
    method TypeInSelector(selector: string, text: string, outcome: PageOutcome) returns (c: Completion)
      modifies page, messages
      ensures page.requests == old(page.requests) + [Fill(selector, text)]
      ensures outcome.Done? ==>
        c == Returned(TypedReply(selector))
        && messages.entries == old(messages.entries) + [Message(TypedStep(selector, text))]
      ensures outcome.Failed? ==>
        c == Returned(TypeFailed(selector, outcome.message)) && messages.entries == old(messages.entries)
    {
      var settled := page.Perform(Fill(selector, text), outcome);
      if settled.Failed? {
        return Returned(TypeFailed(selector, settled.message));
      }
      messages.Push(Message(TypedStep(selector, text)));
      return Returned(TypedReply(selector));
    }

    /** `navigate_url`: waits for DOMContentLoaded; logs and reports success only when navigation resolves. */
    method NavigateUrl(url: string, outcome: PageOutcome) returns (c: Completion)
      modifies page, messages
      ensures page.requests == old(page.requests) + [Goto(url, "domcontentloaded")]
      ensures outcome.Done? ==>
        c == Returned(NavigatedText(url)) && messages.entries == old(messages.entries) + [Message(NavigatedText(url))]
      ensures outcome.Failed? ==>
        c == Returned(NavigateFailed(url, outcome.message)) && messages.entries == old(messages.entries)
    {
      var settled := page.Perform(Goto(url, "domcontentloaded"), outcome);
      if settled.Failed? {
        return Returned(NavigateFailed(url, settled.message));
      }
      messages.Push(Message(NavigatedText(url)));
      return Returned(NavigatedText(url));
    }

    /**
     * `take_screenshot`: saves to a file named by the time `now` (`Date.now()`).
     * It has no `catch`: a failed capture escapes the tool and logs nothing.
     */
    method TakeScreenshot(now: nat, outcome: PageOutcome) returns (c: Completion)
      modifies page, messages
      ensures page.requests == old(page.requests) + [Screenshot(ScreenshotPath(now))]
      ensures outcome.Done? ==>
        c == Returned(ScreenshotReply(ScreenshotPath(now)))
        && messages.entries == old(messages.entries) + [Message(ScreenshotStep(ScreenshotPath(now)))]
      ensures outcome.Failed? ==> c == Threw(outcome.message) && messages.entries == old(messages.entries)
    {
      var path := ScreenshotPath(now);
      var settled := page.Perform(Screenshot(path), outcome);
      if settled.Failed? {
        return Threw(settled.message);
      }
      messages.Push(Message(ScreenshotStep(path)));
      return Returned(ScreenshotReply(path));
    }

    /**
     * `scroll_page`: scrolls the window by the signed delta; the step logged is
     * the text returned. It has no `catch`: a failed evaluation escapes the tool.
     */
    method ScrollPage(direction: Direction, amount: int, outcome: PageOutcome) returns (c: Completion)
      modifies page, messages
      ensures page.requests == old(page.requests) + [ScrollBy(0, ScrollDelta(direction, amount))]
      ensures outcome.Done? ==>
        c == Returned(ScrolledText(direction, amount)) && messages.entries == old(messages.entries) + [Message(c.text)]
      ensures outcome.Failed? ==> c == Threw(outcome.message) && messages.entries == old(messages.entries)
    {
      var scrollValue := if direction == Down then amount else -amount;
      var settled := page.Perform(ScrollBy(0, scrollValue), outcome);
      if settled.Failed? {
        return Threw(settled.message);
      }
      messages.Push(Message(ScrolledText(direction, amount)));
      return Returned(ScrolledText(direction, amount));
    }
  }
}
