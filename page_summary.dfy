/**
 * The page summary that `get_page_content` hands to the agent: the interactive
 * elements of the page that have a layout box, one line each, with a selector
 * guessed from the element's id, its first class or its tag name.
 */
module PageSummary {
  import opened Wrappers
  import opened Text

  /** What the summary reads of one DOM element. */
  datatype Element = Element(
    tagName: string,            // el.tagName, e.g. "BUTTON"
    id: string,                 // el.id, "" when the element has none
    className: Option<string>,  // el.className when it is a string; None when it is not (an SVG element's)
    role: Option<string>,       // the role attribute, when present
    textContent: string,
    hasOffsetParent: bool)      // el.offsetParent !== null

  /** One line of the summary before it is rendered. */
  datatype Descriptor = Descriptor(tag: string, selector: string, text: string)

  /** The selector list the page is queried with. */
  const InteractiveQuery := "a, button, input, [role=\"button\"], [role=\"link\"]"

  /** The longest text excerpt a line carries. */
  const MaxExcerpt := 100

  // Written in two parts: the verifier does not read single characters out of a literal this long.
  const Header := "Here are the interactive " + "elements on the page:\n"
  const NoElements := "No interactive elements found on the page."

  /** `e` matches InteractiveQuery: a link, a button, an input, or an element whose role is button or link. */
  predicate MatchesQuery(e: Element) {
    var tag := ToLower(e.tagName);
    tag == "a" || tag == "button" || tag == "input" || e.role == Some("button") || e.role == Some("link")
  }

  /** The visibility test of the summary: `el.offsetParent !== null`. */
  predicate IsRendered(e: Element) {
    e.hasOffsetParent
  }

  /** `s.filter(p)`. */
  function Filter<T(!new)>(p: T -> bool, s: seq<T>): (r: seq<T>)
    ensures |r| <= |s|
    ensures forall x :: x in r <==> x in s && p(x)
  {
    if s == [] then []
    else if p(s[0]) then [s[0]] + Filter(p, s[1..])
    else Filter(p, s[1..])
  }

  /** Filtering keeps the order of the input: the survivors of a prefix come first. */
  lemma {:induction false} FilterAppend<T(!new)>(p: T -> bool, a: seq<T>, b: seq<T>)
    ensures Filter(p, a + b) == Filter(p, a) + Filter(p, b)
    decreases |a|
  {
    if a != [] {
      assert (a + b)[0] == a[0];
      assert (a + b)[1..] == a[1..] + b;
      FilterAppend(p, a[1..], b);
      if p(a[0]) {
        calc {
          Filter(p, a + b);
          [a[0]] + Filter(p, a[1..] + b);
          [a[0]] + (Filter(p, a[1..]) + Filter(p, b));
          ([a[0]] + Filter(p, a[1..])) + Filter(p, b);
        }
      } else {
        calc {
          Filter(p, a + b);
          Filter(p, a[1..] + b);
        }
      }
    } else {
      assert a + b == b;
    }
  }

  /** `el.className.split(' ').find(c => c)`. */
  function FirstClass(className: string): Option<string> {
    FindNonEmpty(Split(className, ' '))
  }

  /** The element has a class attribute string with some character other than a space. */
  predicate HasClassToken(e: Element) {
    e.className.Some? && exists i | 0 <= i < |e.className.value| :: e.className.value[i] != ' '
  }

  /** The selector the summary suggests for `e`. */
  function SelectorOf(e: Element): string {
    if e.id != "" then "#" + e.id
    else if e.className.Some? && e.className.value != "" && FirstClass(e.className.value).Some? then
      "." + FirstClass(e.className.value).value
    else ToLower(e.tagName)
  }

  /**
   * The selector is the id when there is one, whatever the classes are; else a
   * dot and the first space-separated class token, when there is one; else the
   * lower-cased tag name.
   */
  lemma SelectorPriority(e: Element)
    ensures e.id != "" ==> SelectorOf(e) == "#" + e.id
    ensures e.id == "" && HasClassToken(e) ==>
      SelectorOf(e) != [] && SelectorOf(e)[0] == '.' && IsFirstToken(SelectorOf(e)[1..], e.className.value, ' ')
    ensures e.id == "" && !HasClassToken(e) ==> SelectorOf(e) == ToLower(e.tagName)
  {
    if e.className.Some? {
      FirstTokenOfSplit(e.className.value, ' ');
      if e.id == "" && HasClassToken(e) {
        assert e.className.value != "";
        assert SelectorOf(e)[1..] == FirstClass(e.className.value).value;
      }
    }
  }

  /** `el.textContent.trim().slice(0, 100)`. */
  function Excerpt(textContent: string): string {
    Slice(Trim(textContent), MaxExcerpt)
  }

  /** The excerpt is the start of the trimmed text, all of it when it has at most 100 characters. */
  lemma ExcerptBounds(textContent: string)
    ensures StartsWith(Trim(textContent), Excerpt(textContent))
    ensures |Excerpt(textContent)| <= MaxExcerpt
    ensures |Trim(textContent)| <= MaxExcerpt ==> Excerpt(textContent) == Trim(textContent)
    ensures |Trim(textContent)| > MaxExcerpt ==> |Excerpt(textContent)| == MaxExcerpt
  {
  }

  function Describe(e: Element): Descriptor {
    Descriptor(ToLower(e.tagName), SelectorOf(e), Excerpt(e.textContent))
  }

  const SelectorAttribute := " selector=\""

  /** `<tag selector="...">text</tag>`. */
  function Render(d: Descriptor): (line: string)
    ensures StartsWith(line, "<" + d.tag + SelectorAttribute)
    ensures EndsWith(line, "</" + d.tag + ">")
  {
    var line := "<" + (d.tag + (SelectorAttribute + (d.selector + ("\">" + (d.text + ("</" + d.tag + ">"))))));
    assert line[..|"<" + d.tag + SelectorAttribute|] == "<" + d.tag + SelectorAttribute;
    assert line[|line| - |"</" + d.tag + ">"|..] == "</" + d.tag + ">";
    line
  }

  /** Reads a line of the summary back into its tag, selector and text. */
  function ParseLine(line: string): Option<Descriptor> {
    if line == [] || line[0] != '<' then None
    else
      var tag := FirstPiece(line[1..], ' ');
      ParseAttribute(tag, line[1 + |tag|..])
  }

  /** Reads ` selector="...">text</tag>` once the tag is known. */
  function ParseAttribute(tag: string, s: string): Option<Descriptor> {
    if !StartsWith(s, SelectorAttribute) then None
    else
      var rest := s[|SelectorAttribute|..];
      var selector := FirstPiece(rest, '"');
      ParseBody(tag, selector, rest[|selector|..])
  }

  /** Reads `">text</tag>` once the tag and the selector are known. */
  function ParseBody(tag: string, selector: string, s: string): Option<Descriptor> {
    var close := "</" + tag + ">";
    if !StartsWith(s, "\">") || !EndsWith(s[2..], close) then None
    else Some(Descriptor(tag, selector, s[2..|s| - |close|]))
  }

  /**
   * A rendered line gives back its tag, selector and text, as long as the tag
   * has no space and the selector no double quote.
   */
  lemma RenderParse(d: Descriptor)
    requires ' ' !in d.tag && '"' !in d.selector
    ensures ParseLine(Render(d)) == Some(d)
  {
    var close := "</" + d.tag + ">";
    var afterSelector := "\">" + (d.text + close);
    var afterTag := SelectorAttribute + (d.selector + afterSelector);
    var line := Render(d);
    assert line == "<" + (d.tag + afterTag);
    ParseAfterTag(d, afterSelector);
    ParseOpen(d.tag, afterTag);
    assert ParseLine(line) == ParseAttribute(d.tag, afterTag);
  }

  lemma ParseOpen(tag: string, afterTag: string)
    requires ' ' !in tag && afterTag != [] && afterTag[0] == ' '
    ensures ParseLine("<" + (tag + afterTag)) == ParseAttribute(tag, afterTag)
  {
    var line := "<" + (tag + afterTag);
    assert afterTag == [' '] + afterTag[1..];
    assert line[1..] == tag + [' '] + afterTag[1..];
    FirstPieceBefore(tag, ' ', afterTag[1..]);
    assert line[1 + |tag|..] == afterTag;
  }

  lemma ParseAfterTag(d: Descriptor, afterSelector: string)
    requires '"' !in d.selector
    requires afterSelector == "\">" + (d.text + "</" + d.tag + ">")
    ensures ParseAttribute(d.tag, SelectorAttribute + (d.selector + afterSelector)) == Some(d)
  {
    var rest := d.selector + afterSelector;
    assert (SelectorAttribute + rest)[|SelectorAttribute|..] == rest;
    assert rest == d.selector + ['"'] + afterSelector[1..];
    FirstPieceBefore(d.selector, '"', afterSelector[1..]);
    assert rest[|d.selector|..] == afterSelector;
    var close := "</" + d.tag + ">";
    assert afterSelector[2..] == d.text + close;
    assert afterSelector[2..|afterSelector| - |close|] == d.text;
  }

  /** `s.map(f)`. */
  function Map<A, B>(f: A -> B, s: seq<A>): (r: seq<B>)
    ensures |r| == |s|
  {
    seq(|s|, i requires 0 <= i < |s| => f(s[i]))
  }

  /** A value is in `s.map(f)` exactly when it is the image of a value in `s`. */
  lemma MapMembers<A(!new), B(!new)>(f: A -> B, s: seq<A>)
    ensures forall y :: y in Map(f, s) <==> exists x :: x in s && y == f(x)
  {
    var r := Map(f, s);
    forall y | y in r ensures exists x :: x in s && y == f(x) {
      var i :| 0 <= i < |r| && r[i] == y;
      assert s[i] in s;
    }
    forall x | x in s ensures f(x) in r {
      var i :| 0 <= i < |s| && s[i] == x;
      assert r[i] == f(x);
    }
  }

  /** Map distributes over concatenation. */
  lemma MapAppend<A, B>(f: A -> B, a: seq<A>, b: seq<A>)
    ensures Map(f, a + b) == Map(f, a) + Map(f, b)
  {
  }

  function LineOf(e: Element): string {
    Render(Describe(e))
  }

  /** The callback of `page.$$eval`: keep the elements with a layout box, then render each. */
  function Lines(matched: seq<Element>): seq<string> {
    Map(LineOf, Filter(IsRendered, matched))
  }

  /** The lines are exactly the renderings of the matched elements that have a layout box. */
  lemma LinesMembers(matched: seq<Element>)
    ensures forall line :: line in Lines(matched) <==> exists e :: e in matched && IsRendered(e) && line == LineOf(e)
  {
    MapMembers(LineOf, Filter(IsRendered, matched));
  }

  /** Lines follow document order: the lines of a concatenation are the lines of its parts in turn. */
  lemma LinesAppend(a: seq<Element>, b: seq<Element>)
    ensures Lines(a + b) == Lines(a) + Lines(b)
  {
    FilterAppend(IsRendered, a, b);
    MapAppend(LineOf, Filter(IsRendered, a), Filter(IsRendered, b));
  }

  /** The summary of a list of lines: a fixed sentinel when they join to nothing, else a header and the lines. */
  function Summary(lines: seq<string>): (r: string)
    ensures r == NoElements || StartsWith(r, Header)
  {
    var summary := Join(lines, "\n");
    if summary == "" then NoElements else Header + summary
  }

  /** What `get_page_content` returns when evaluation on the page succeeds. */
  function Summarize(page: seq<Element>): string {
    Summary(Lines(Filter(MatchesQuery, page)))
  }

  /**
   * The summary is the sentinel exactly when no element of the page both
   * matches the query and has a layout box; otherwise it is the header
   * followed by the lines joined with newlines.
   */
  lemma SummarizeCases(page: seq<Element>)
    ensures Summarize(page) == NoElements <==> forall e | e in page :: !(MatchesQuery(e) && IsRendered(e))
    ensures Summarize(page) != NoElements ==>
      Summarize(page) == Header + Join(Lines(Filter(MatchesQuery, page)), "\n")
  {
    var matched := Filter(MatchesQuery, page);
    var lines := Lines(matched);
    assert (exists e :: e in page && MatchesQuery(e) && IsRendered(e)) <==> (exists e :: e in matched && IsRendered(e));
    LinesEmpty(matched);
    SummaryEmpty(lines);
  }

  /** No line exactly when no matched element has a layout box. */
  lemma LinesEmpty(matched: seq<Element>)
    ensures Lines(matched) == [] <==> forall e | e in matched :: !IsRendered(e)
    ensures forall k | 0 <= k < |Lines(matched)| :: Lines(matched)[k] != ""
  {
    var lines := Lines(matched);
    LinesMembers(matched);
    if exists e :: e in matched && IsRendered(e) {
      var e :| e in matched && IsRendered(e);
      assert LineOf(e) in lines;
    }
    if lines != [] {
      assert lines[0] in lines;
    }
    forall k | 0 <= k < |lines| ensures lines[k] != "" {
      assert lines[k] in lines;
      var e :| e in matched && IsRendered(e) && lines[k] == LineOf(e);
    }
  }

  /** A summary of non-empty lines is the sentinel exactly when there are no lines. */
  lemma SummaryEmpty(lines: seq<string>)
    requires forall k | 0 <= k < |lines| :: lines[k] != ""
    ensures Summary(lines) == NoElements <==> lines == []
    ensures lines != [] ==> Summary(lines) == Header + Join(lines, "\n")
  {
    if lines != [] {
      assert Join(lines, "\n") != "";
      assert |Header + Join(lines, "\n")| > |NoElements|;
    }
  }

  /**
   * The summary keeps document order: when both runs of a page have lines,
   * the summary of the whole is the summary of the first run, a newline, and
   * the lines of the second.
   */
  lemma SummarizeAppend(a: seq<Element>, b: seq<Element>)
    requires Lines(Filter(MatchesQuery, a)) != [] && Lines(Filter(MatchesQuery, b)) != []
    ensures Summarize(a + b) == Summarize(a) + "\n" + Join(Lines(Filter(MatchesQuery, b)), "\n")
  {
    var la := Lines(Filter(MatchesQuery, a));
    var lb := Lines(Filter(MatchesQuery, b));
    var ja := Join(la, "\n");
    var jb := Join(lb, "\n");
    assert Lines(Filter(MatchesQuery, a + b)) == la + lb by {
      FilterAppend(MatchesQuery, a, b);
      LinesAppend(Filter(MatchesQuery, a), Filter(MatchesQuery, b));
    }
    JoinAppend(la, lb, "\n");
    assert ja != "" by {
      LinesEmpty(Filter(MatchesQuery, a));
      assert StartsWith(ja, la[0]);
    }
    calc {
      Summarize(a + b);
      Summary(la + lb);
      Header + (ja + "\n" + jb);
      (Header + ja) + "\n" + jb;
      Summarize(a) + "\n" + jb;
    }
  }
}
