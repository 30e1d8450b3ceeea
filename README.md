# Browser-automation agent tools, modelled in Dafny

The repository gives a language-model agent six tools that drive one browser
page through Playwright: `get_page_content`, `click_selector`,
`type_in_selector`, `navigate_url`, `take_screenshot` and `scroll_page`, all in
`assignment.js`. Each tool that finishes its work pushes a `{ step }` message
onto a module-level `messages` array, the action log. This project models two
parts of that file:

- **The page summary** (`page_summary.dfy`, with the JavaScript string
  operations it uses in `text.dfy`). The `$$eval` callback keeps the queried
  elements whose `offsetParent` is not null. It guesses a selector for each:
  `#id` first, then `.` and the first non-empty space-separated class, then the
  lower-cased tag name. It takes the first 100 characters of the trimmed text
  and renders one `<tag selector="...">text</tag>` line per element. The tool
  joins the lines with newlines and adds a header. When the join is empty it
  returns a fixed sentinel instead.
- **The tool wrappers and the action log** (`browser_tools.dfy`). `MessageLog`
  is the process-wide `messages` array. `Page` stands for the shared Playwright
  page and keeps a ghost trace of the operations the tools ask of it.
  `Automation` holds the tools that one call of `automation()` builds. How a page
  operation settles is a parameter of each tool method: it resolves, or it is
  rejected with an error message. For `get_page_content` the parameter is the
  page's element list, or the message of the error that evaluation threw.

`wrappers.dfy` holds `Option` and `Result`.

The model follows what the code does:

- A failed click, fill or navigation logs nothing. The push comes after the
  awaited call inside `try`, so a rejection skips it.
- `take_screenshot` and `scroll_page` have no `catch`. A rejected page call
  escapes the tool (`Completion.Threw`) and nothing is logged.
- `get_page_content` logs its step before it checks for the sentinel. So an
  empty page is logged too. A throwing evaluation is not logged.
- Visibility is `offsetParent !== null`, a flag on each element. It is not a
  bounding-box test.
- The text is trimmed first and then cut to 100 characters. So an excerpt can
  end in whitespace.
- The navigation step and reply read "Mapsd to <url>", as the code spells them.

## Model

| member | source | states |
|---|---|---|
| `Text.Trim` | assignment.js:45 | `trim()` leaves a contiguous part of the text, with only JavaScript whitespace cut off each end, and neither end of the result is whitespace |
| `Text.TrimIdempotent` | assignment.js:45 | `trim()` as modelled is idempotent: its result has no whitespace left to cut at either end |
| `Text.ToLower` | assignment.js:35 | `toLowerCase()` keeps the length, turns every upper-case ASCII letter into its lower-case partner (32 code points on), leaves no upper-case ASCII letter and changes no other character |
| `Text.Slice` | assignment.js:45 | `slice(0, n)` is a prefix of length `min(n, length)` |
| `Text.Split` | assignment.js:40 | `split(' ')` yields at least one piece and no piece holds the separator |
| `Text.JoinSplit` | assignment.js:40 | joining the pieces of `split(sep)` with `sep` gives back the original string |
| `Text.FindNonEmpty` | assignment.js:40 | `find(c => c)` finds a value exactly when some piece is non-empty, and what it finds is the first non-empty piece: every piece before it is empty |
| `Text.FirstTokenOfSplit` | assignment.js:40 | the first non-empty piece of `split(' ')` is missing exactly when the string is all spaces; otherwise it is the first maximal run of non-space characters after the leading spaces |
| `Text.Join` | assignment.js:49 | `join(sep)` of no parts is the empty string, which the sentinel test relies on; otherwise it starts with the first part, and is that part alone when there is one |
| `Text.JoinAppend` | assignment.js:49 | joining two non-empty runs of parts is the join of the first, the separator, and the join of the second; with `Join`'s own contract (empty for no parts, the part itself for one) this fixes every join |
| `Text.Decimal` | assignment.js:116 | defined by its body (the digits of a natural, most significant first); the result is non-empty, all digits, with no leading zero; `Text.DecimalRoundTrip` specifies it |
| `Text.DecimalRoundTrip` | assignment.js:116 | the decimal digits of a timestamp read back as that timestamp |
| `Text.NumberText` | assignment.js:135 | defined by its body (a minus sign for a negative number, then the decimal digits); `Text.NumberTextRoundTrip` specifies it |
| `Text.NumberTextRoundTrip` | assignment.js:135 | the text of an integer in a template literal reads back as that integer |
| `PageSummary.MatchesQuery` | assignment.js:31 | defined by its body: the lower-cased tag is `a`, `button` or `input`, or the role attribute is exactly `button` or `link`; `PageSummary.SummarizeCases` uses it |
| `PageSummary.IsRendered` | assignment.js:33 | defined by its body: the element's `offsetParent` is not null; `PageSummary.LinesMembers` and `PageSummary.LinesEmpty` state the filter in terms of it |
| `PageSummary.Filter` | assignment.js:33 | `filter(p)` keeps an element exactly when it is in the input and passes `p`, and never grows the list |
| `PageSummary.FilterAppend` | assignment.js:33 | filtering keeps document order: the survivors of a prefix come before those of the rest |
| `PageSummary.Map` | assignment.js:34 | `map(f)` produces one result per element |
| `PageSummary.MapMembers` | assignment.js:34-47 | a value is in `map(f)` exactly when it is the image of an element of the input |
| `PageSummary.FirstClass` | assignment.js:40 | defined by its body as the first non-empty piece of `split(' ')`; `Text.FindNonEmpty` and `Text.FirstTokenOfSplit` specify it |
| `PageSummary.SelectorOf` | assignment.js:35-44 | defined by its body (id, then first class, then lower-cased tag); `PageSummary.SelectorPriority` specifies it |
| `PageSummary.SelectorPriority` | assignment.js:35-44 | a non-empty id gives `#id`, whatever the classes; with no id, a class string that has a non-space character gives `.` and its first space-separated token; otherwise the lower-cased tag name |
| `PageSummary.Excerpt` | assignment.js:45 | defined by its body as `Slice(Trim(text), 100)`; `PageSummary.ExcerptBounds` specifies it |
| `PageSummary.ExcerptBounds` | assignment.js:45 | the excerpt is a prefix of the trimmed text, at most 100 characters, all of the trimmed text when that is 100 characters or fewer, and exactly 100 otherwise |
| `PageSummary.Describe` | assignment.js:35-46 | defined by its body: the lower-cased tag, the selector of `SelectorOf` and the excerpt of `Excerpt`; `PageSummary.RenderParse` reads them back |
| `PageSummary.Render` | assignment.js:46 | a line opens with `<tag selector="` and closes with `</tag>`, with the same tag at both ends |
| `PageSummary.RenderParse` | assignment.js:46 | a line reads back as its tag, selector and text when the tag has no space and the selector no double quote |
| `PageSummary.LineOf` | assignment.js:34-46 | defined by its body as the rendering of the element's descriptor; `PageSummary.RenderParse` specifies it |
| `PageSummary.Lines` | assignment.js:32-47 | defined by its body as map-after-filter; `PageSummary.LinesMembers`, `PageSummary.LinesAppend` and `PageSummary.LinesEmpty` specify it |
| `PageSummary.LinesMembers` | assignment.js:31-48 | the lines are exactly the renderings of the matched elements whose `offsetParent` is not null |
| `PageSummary.LinesAppend` | assignment.js:32-47 | the lines keep document order: the lines of two runs of elements are the lines of the first followed by those of the second |
| `PageSummary.LinesEmpty` | assignment.js:32-47 | there are no lines exactly when no matched element has an offset parent, and every line is non-empty |
| `PageSummary.Summary` | assignment.js:49-52 | the result is the sentinel or starts with the header |
| `PageSummary.SummaryEmpty` | assignment.js:49-52 | for non-empty lines the result is the sentinel exactly when there are no lines, and otherwise the header followed by the lines joined with newlines |
| `PageSummary.Summarize` | assignment.js:31-52 | defined by its body as the summary of the lines of the matched elements; `PageSummary.SummarizeCases` and `PageSummary.SummarizeAppend` specify it |
| `PageSummary.SummarizeCases` | assignment.js:31-52 | the summary is the sentinel exactly when no element of the page both matches the query and has an offset parent; otherwise it is the header followed by the lines joined with newlines |
| `PageSummary.SummarizeAppend` | assignment.js:31-52 | the summary keeps document order: when two runs of a page both have lines, the summary of the whole is the summary of the first run, a newline, and the lines of the second joined with newlines |
| `BrowserTools.RetrievedStep` | assignment.js:50 | defined by its body: the fixed step text; `BrowserTools.Automation.GetPageContent` logs it on every successful evaluation |
| `BrowserTools.PageContentFailed` | assignment.js:53-54 | the failure text starts with "Failed" and embeds the error message |
| `BrowserTools.ClickedStep` | assignment.js:68 | the logged click step embeds the selector |
| `BrowserTools.ClickedReply` | assignment.js:69 | the click success text starts with "Successfully" and embeds the selector |
| `BrowserTools.ClickFailed` | assignment.js:70-71 | the click failure text starts with "Failed" and embeds the selector and the error message |
| `BrowserTools.TypedStep` | assignment.js:86 | the logged typing step embeds the selector and the typed text |
| `BrowserTools.TypedReply` | assignment.js:87 | the typing success text starts with "Successfully" and embeds the selector |
| `BrowserTools.TypeFailed` | assignment.js:88-89 | the typing failure text starts with "Failed" and embeds the selector and the error message |
| `BrowserTools.NavigatedText` | assignment.js:103-104 | the navigation step and reply start with "Mapsd" and embed the URL |
| `BrowserTools.NavigateFailed` | assignment.js:105-106 | the navigation failure text starts with "Failed" and embeds the URL and the error message |
| `BrowserTools.RepliesTellOutcome` | assignment.js:49-106 | a success text of click, type or navigate never equals a failure text of the same tool, and a summary or the empty-page sentinel never equals the failure text of `get_page_content` |
| `BrowserTools.ScreenshotPath` | assignment.js:116 | defined by its body as `screenshot-<digits of the timestamp>.png`; `BrowserTools.ScreenshotPathsDiffer` specifies it |
| `BrowserTools.ScreenshotPathsDiffer` | assignment.js:116 | screenshots taken at different times get different file names |
| `BrowserTools.ScreenshotStep` | assignment.js:118 | the logged screenshot step embeds the file path |
| `BrowserTools.ScreenshotReply` | assignment.js:119 | the screenshot reply embeds the file path |
| `BrowserTools.ScrollDelta` | assignment.js:131 | the delta is `amount` or `-amount`; scrolling down moves forward exactly when the amount is positive, and scrolling up exactly when it is negative |
| `BrowserTools.DirectionName` | assignment.js:127 | defined by its body: the enum value `up` or `down`; `BrowserTools.ScrolledTextDiffers` shows the two names lead to different texts |
| `BrowserTools.ScrolledText` | assignment.js:135-136 | defined by its body as `Scrolled <direction> by <amount>px`; `BrowserTools.ScrolledTextDiffers` specifies it |
| `BrowserTools.ScrolledTextDiffers` | assignment.js:135-136 | the scroll text determines the direction and the amount |
| `BrowserTools.MessageLog.constructor` | assignment.js:11 | the log starts empty |
| `BrowserTools.MessageLog.Push` | assignment.js:50 | a push appends exactly one message and keeps the earlier ones |
| `BrowserTools.Page.constructor` | assignment.js:19 | a new page has received no requests |
| `BrowserTools.Page.Perform` | assignment.js:67 | an awaited page operation settles as given and is recorded as requested, whatever its outcome |
| `BrowserTools.Automation.constructor` | assignment.js:12-19 | the tools share a fresh page that has had no requests, and they write to the given process-wide log |
| `BrowserTools.Automation.GetPageContent` | assignment.js:29-56 | one evaluation request; on success the summary is returned and exactly one step is logged, the sentinel case included; when evaluation throws, the failure text is returned and the log is unchanged |
| `BrowserTools.Automation.ClickSelector` | assignment.js:65-73 | one click request; on success one step is logged and the success text returned; on failure the log is unchanged and the failure text is returned; it never throws |
| `BrowserTools.Automation.TypeInSelector` | assignment.js:83-91 | one fill request with the selector and text; on success one step is logged; on failure the log is unchanged and the failure text is returned; it never throws |
| `BrowserTools.Automation.NavigateUrl` | assignment.js:100-108 | one navigation request that waits for `domcontentloaded`; on success the same text is logged and returned; on failure the log is unchanged and the failure text is returned |
| `BrowserTools.Automation.TakeScreenshot` | assignment.js:115-120 | one screenshot request to the file named by the timestamp; on success one step is logged; a failure escapes the tool and logs nothing |
| `BrowserTools.Automation.ScrollPage` | assignment.js:130-137 | one `scrollBy(0, delta)` request with the signed delta; on success the logged step equals the returned text; a failure escapes the tool and logs nothing |

## Left out

- Browser launch, `newPage`, the Chrome DevTools Protocol client on port 9222 and `browser.close` (assignment.js:14-21, 168): process and network I/O in libraries the model cannot see. `Automation.constructor` only creates the page object.
- The `OPENAI_API_KEY` check at load time (assignment.js:7-9): reads the process environment.
- The agent, its instructions and `chatWithAgent` (assignment.js:140-171): the agent loop, tool dispatch and history belong to the agents library. The instructions are advice to the model, not code.
- Parameter validation by zod schemas (assignment.js:28, 62-64, 79-82, 97-99, 114, 126-129): library behaviour. `direction` is therefore one of two values, and `amount` is an integer. Fractional amounts are not modelled.
- What the browser does: how `offsetParent` is computed, what `click`, `fill`, `goto`, `screenshot` and `scrollBy` change on the page, and the PNG file write. These are inputs (a flag per element, an outcome per call) or ghost requests.
- `MatchesQuery` stands in for `querySelectorAll` with the selector list of assignment.js:31. It lower-cases the tag and compares the role attribute exactly. Shadow trees, frames and case rules for attributes other than these are not modelled.
- `Text.ToLower` maps only ASCII letters. JavaScript's `toLowerCase` maps all of Unicode. The HTML parser upper-cases only the ASCII letters of a tag name, so a custom element such as `<x-Élan role="button">` keeps a non-ASCII letter in `tagName`: JavaScript lower-cases it, the model does not.
- Strings are sequences of Unicode scalar values. JavaScript's `slice(0, 100)` counts UTF-16 code units, so text with characters outside the Basic Multilingual Plane can be cut at a different place.
- `Text.NumberText` writes every integer in plain decimal. `amount` is a JavaScript double, so integers above 2^53 are not all representable, and JavaScript prints an integer-valued number above 2^53 as its shortest round-trip digits padded with zeros (`${2**60}` is "1152921504606847000", where `NumberText` gives "1152921504606846976"). From 10^21 on JavaScript uses exponent notation. The model matches JavaScript for integers up to 2^53; screenshot timestamps stay far below that, a scroll amount need not.
- Each tool method runs alone from its start to its return. The `execute` bodies are async and push only after awaiting the page (assignment.js:31, 67, 85, 102, 117, 132), so if the agent runtime runs several tool calls at once they interleave at those awaits, and the log order becomes the order in which the page operations settle. The model does not capture that interleaving.
- `err.message` is taken as given text. A thrown value that is not an `Error` renders as "undefined" in JavaScript, and that case is folded into the message parameter.
- agent.js and agen2.js (thin agent wrappers), frontend/vite (a mock UI) and tests/agent.spec.js (a live run with no assertions) hold no logic of this core.
