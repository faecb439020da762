/** What the assembler guarantees over whole event sequences. */
module AssemblyLemmas {
  import opened Wrappers
  import opened Page
  import opened Sax
  import opened Assembly

  /** `join("")` is concatenation, so it distributes over appending fragment lists. */
  lemma {:induction false} JoinAppend(a: seq<string>, b: seq<string>)
    ensures Join(a + b) == Join(a) + Join(b)
  {
    if a == [] {
      assert a + b == b;
    } else {
      assert (a + b)[1..] == a[1..] + b;
      JoinAppend(a[1..], b);
    }
  }

  /** Handling `a` and then `b` is handling `a + b`: the assembler is a left fold. */
  lemma {:induction false} RunAppend(pageTag: string, s: State, a: seq<Event>, b: seq<Event>)
    ensures Run(pageTag, s, a + b) == Run(pageTag, Run(pageTag, s, a), b)
    decreases |a|
  {
    if a == [] {
      assert a + b == b;
    } else {
      assert (a + b)[1..] == a[1..] + b;
      RunAppend(pageTag, Step(pageTag, s, a[0]), a[1..], b);
    }
  }

  lemma RunSingle(pageTag: string, s: State, e: Event)
    ensures Run(pageTag, s, [e]) == Step(pageTag, s, e)
  {
    assert [e][1..] == [];
  }

  /** A run of text and CDATA events appends its fragments while buffering and is ignored otherwise. */
  lemma {:induction false} CharacterDataRun(pageTag: string, s: State, events: seq<Event>)
    requires AllCharacterData(events)
    ensures Run(pageTag, s, events)
            == if s.bufferingCharacters then s.(characterBuffer := s.characterBuffer + Fragments(events)) else s
    decreases |events|
  {
    if events != [] {
      var next := Step(pageTag, s, events[0]);
      assert next == CharactersStep(s, events[0].characters);
      CharacterDataRun(pageTag, next, events[1..]);
      assert s.characterBuffer + Fragments(events)
             == (s.characterBuffer + [events[0].characters]) + Fragments(events[1..]);
    }
  }

  /** The events of an element `name` whose content is the character data `content`. */
  function Element(name: string, content: seq<Event>): seq<Event> {
    [OpenTag(name)] + content + [CloseTag(name)]
  }

  /** `s` after the field `field` has been closed with the assembled value `value`. */
  function WithField(s: State, field: string, value: string): State {
    if field == TitleTag then
      s.(bufferingCharacters := false, currentTitle := Some(value), characterBuffer := [])
    else
      s.(bufferingCharacters := false, currentText := Some(value), characterBuffer := [])
  }

  /**
   * A whole `title` or `text` element sets its field to everything buffered, in
   * order, and leaves buffering off and the buffer empty. It needs the page tag to
   * differ from the field name: otherwise opening the field resets the page instead.
   */
  lemma FieldElement(pageTag: string, s: State, field: string, content: seq<Event>)
    requires field == TitleTag || field == TextTag
    requires field != pageTag
    requires AllCharacterData(content)
    ensures Run(pageTag, s, Element(field, content))
            == WithField(s, field, Join(s.characterBuffer + Fragments(content)))
  {
    var buffering := s.(bufferingCharacters := true);
    assert Run(pageTag, s, [OpenTag(field)]) == buffering;
    RunAppend(pageTag, s, [OpenTag(field)], content + [CloseTag(field)]);
    assert Element(field, content) == [OpenTag(field)] + (content + [CloseTag(field)]);
    RunAppend(pageTag, buffering, content, [CloseTag(field)]);
    CharacterDataRun(pageTag, buffering, content);
  }

  /**
   * Splitting a field's character data into any number of text or CDATA events
   * gives the same state as delivering it as one text event.
   */
  lemma SplitInvisible(pageTag: string, s: State, field: string, content: seq<Event>)
    requires field == TitleTag || field == TextTag
    requires field != pageTag
    requires AllCharacterData(content)
    ensures Run(pageTag, s, Element(field, content))
            == Run(pageTag, s, Element(field, [Text(Join(Fragments(content)))]))
  {
    var whole := [Text(Join(Fragments(content)))];
    FieldElement(pageTag, s, field, content);
    FieldElement(pageTag, s, field, whole);
    assert Fragments(whole) == [Join(Fragments(content))];
    JoinAppend(s.characterBuffer, Fragments(content));
    JoinAppend(s.characterBuffer, Fragments(whole));
    var joined := Join(Fragments(content));
    assert [joined][1..] == [];
    assert Join([joined]) == joined + Join([]);
    assert Join(s.characterBuffer + Fragments(content)) == Join(s.characterBuffer + Fragments(whole));
  }

  /** An element that is neither the page nor a field, met while not buffering, changes nothing. */
  lemma SiblingInvisible(pageTag: string, s: State, name: string, content: seq<Event>)
    requires name != pageTag && name != TitleTag && name != TextTag
    requires !s.bufferingCharacters
    requires AllCharacterData(content)
    ensures Run(pageTag, s, Element(name, content)) == s
  {
    assert Run(pageTag, s, [OpenTag(name)]) == s;
    RunAppend(pageTag, s, [OpenTag(name)], content + [CloseTag(name)]);
    assert Element(name, content) == [OpenTag(name)] + (content + [CloseTag(name)]);
    RunAppend(pageTag, s, content, [CloseTag(name)]);
    CharacterDataRun(pageTag, s, content);
  }

  /** Inserting such an element anywhere buffering is off does not change the outcome. */
  lemma InsertSiblingInvisible(pageTag: string, s: State, before: seq<Event>, name: string,
                               content: seq<Event>, after: seq<Event>)
    requires name != pageTag && name != TitleTag && name != TextTag
    requires !Run(pageTag, s, before).bufferingCharacters
    requires AllCharacterData(content)
    ensures Run(pageTag, s, before + Element(name, content) + after) == Run(pageTag, s, before + after)
  {
    var mid := Run(pageTag, s, before);
    RunAppend(pageTag, s, before + Element(name, content), after);
    RunAppend(pageTag, s, before, Element(name, content));
    SiblingInvisible(pageTag, mid, name, content);
    RunAppend(pageTag, s, before, after);
  }

  /** Page element with the title element first, then the text element. */
  function PageElement(pageTag: string, titleContent: seq<Event>, textContent: seq<Event>): seq<Event> {
    [OpenTag(pageTag)] + Element(TitleTag, titleContent) + Element(TextTag, textContent) + [CloseTag(pageTag)]
  }

  /** Page element with the text element first, then the title element. */
  function PageElementTextFirst(pageTag: string, titleContent: seq<Event>, textContent: seq<Event>): seq<Event> {
    [OpenTag(pageTag)] + Element(TextTag, textContent) + Element(TitleTag, titleContent) + [CloseTag(pageTag)]
  }

  /** The state after a page whose title and text were assembled as `title` and `text` closes. */
  function PageClosed(s: State, title: string, text: string): State {
    var fields := s.(bufferingCharacters := false, characterBuffer := [],
                     currentTitle := Some(title), currentText := Some(text));
    if title == "" then fields.(infoLog := s.infoLog + [NoTitleMessage])
    else if text == "" then fields.(infoLog := s.infoLog + [NoTextMessage(title)])
    else fields.(pages := s.pages + [WikiPage(title, text)])
  }

  /**
   * A complete page element, title first: an empty title is reported and skipped,
   * then an empty text is reported and skipped, and otherwise exactly one page is
   * emitted with the assembled fields.
   */
  lemma PageElementOutcome(pageTag: string, s: State, titleContent: seq<Event>, textContent: seq<Event>)
    requires pageTag != TitleTag && pageTag != TextTag
    requires s.characterBuffer == []
    requires AllCharacterData(titleContent) && AllCharacterData(textContent)
    ensures Run(pageTag, s, PageElement(pageTag, titleContent, textContent))
            == PageClosed(s, Join(Fragments(titleContent)), Join(Fragments(textContent)))
  {
    var title, text := Join(Fragments(titleContent)), Join(Fragments(textContent));
    var s1 := s.(currentTitle := None, currentText := None);
    assert Run(pageTag, s, [OpenTag(pageTag)]) == s1;
    var s2 := WithField(s1, TitleTag, title);
    assert s1.characterBuffer + Fragments(titleContent) == Fragments(titleContent);
    FieldElement(pageTag, s1, TitleTag, titleContent);
    var s3 := WithField(s2, TextTag, text);
    assert s2.characterBuffer + Fragments(textContent) == Fragments(textContent);
    FieldElement(pageTag, s2, TextTag, textContent);
    assert Run(pageTag, s3, [CloseTag(pageTag)]) == ClosePageStep(s3);
    var events := PageElement(pageTag, titleContent, textContent);
    assert events == [OpenTag(pageTag)] + Element(TitleTag, titleContent)
                     + Element(TextTag, textContent) + [CloseTag(pageTag)];
    RunAppend(pageTag, s, [OpenTag(pageTag)] + Element(TitleTag, titleContent) + Element(TextTag, textContent),
              [CloseTag(pageTag)]);
    RunAppend(pageTag, s, [OpenTag(pageTag)] + Element(TitleTag, titleContent), Element(TextTag, textContent));
    RunAppend(pageTag, s, [OpenTag(pageTag)], Element(TitleTag, titleContent));
  }

  /** The same page element with its fields in the other order has the same outcome. */
  lemma FieldOrderIrrelevant(pageTag: string, s: State, titleContent: seq<Event>, textContent: seq<Event>)
    requires pageTag != TitleTag && pageTag != TextTag
    requires s.characterBuffer == []
    requires AllCharacterData(titleContent) && AllCharacterData(textContent)
    ensures Run(pageTag, s, PageElementTextFirst(pageTag, titleContent, textContent))
            == Run(pageTag, s, PageElement(pageTag, titleContent, textContent))
  {
    var title, text := Join(Fragments(titleContent)), Join(Fragments(textContent));
    var s1 := s.(currentTitle := None, currentText := None);
    assert Run(pageTag, s, [OpenTag(pageTag)]) == s1;
    var s2 := WithField(s1, TextTag, text);
    assert s1.characterBuffer + Fragments(textContent) == Fragments(textContent);
    FieldElement(pageTag, s1, TextTag, textContent);
    var s3 := WithField(s2, TitleTag, title);
    assert s2.characterBuffer + Fragments(titleContent) == Fragments(titleContent);
    FieldElement(pageTag, s2, TitleTag, titleContent);
    assert Run(pageTag, s3, [CloseTag(pageTag)]) == ClosePageStep(s3);
    RunAppend(pageTag, s, [OpenTag(pageTag)] + Element(TextTag, textContent) + Element(TitleTag, titleContent),
              [CloseTag(pageTag)]);
    RunAppend(pageTag, s, [OpenTag(pageTag)] + Element(TextTag, textContent), Element(TitleTag, titleContent));
    RunAppend(pageTag, s, [OpenTag(pageTag)], Element(TextTag, textContent));
    PageElementOutcome(pageTag, s, titleContent, textContent);
  }

  /** A page element holding only a text element is reported as having no title and emits nothing. */
  lemma PageWithoutTitle(pageTag: string, s: State, textContent: seq<Event>)
    requires pageTag != TitleTag && pageTag != TextTag
    requires AllCharacterData(textContent)
    ensures var r := Run(pageTag, s, [OpenTag(pageTag)] + Element(TextTag, textContent) + [CloseTag(pageTag)]);
            r.pages == s.pages && r.infoLog == s.infoLog + [NoTitleMessage] && r.errorLog == s.errorLog
  {
    var s1 := s.(currentTitle := None, currentText := None);
    assert Run(pageTag, s, [OpenTag(pageTag)]) == s1;
    var s2 := WithField(s1, TextTag, Join(s1.characterBuffer + Fragments(textContent)));
    FieldElement(pageTag, s1, TextTag, textContent);
    assert Run(pageTag, s2, [CloseTag(pageTag)]) == ClosePageStep(s2);
    RunAppend(pageTag, s, [OpenTag(pageTag)] + Element(TextTag, textContent), [CloseTag(pageTag)]);
    RunAppend(pageTag, s, [OpenTag(pageTag)], Element(TextTag, textContent));
  }

  /** A page element holding only a non-empty title is reported by that title and emits nothing. */
  lemma PageWithoutText(pageTag: string, s: State, titleContent: seq<Event>)
    requires pageTag != TitleTag && pageTag != TextTag
    requires s.characterBuffer == []
    requires AllCharacterData(titleContent) && Join(Fragments(titleContent)) != ""
    ensures var r := Run(pageTag, s, [OpenTag(pageTag)] + Element(TitleTag, titleContent) + [CloseTag(pageTag)]);
            r.pages == s.pages && r.errorLog == s.errorLog
            && r.infoLog == s.infoLog + [NoTextMessage(Join(Fragments(titleContent)))]
  {
    var s1 := s.(currentTitle := None, currentText := None);
    assert Run(pageTag, s, [OpenTag(pageTag)]) == s1;
    assert s1.characterBuffer + Fragments(titleContent) == Fragments(titleContent);
    var s2 := WithField(s1, TitleTag, Join(Fragments(titleContent)));
    FieldElement(pageTag, s1, TitleTag, titleContent);
    assert Run(pageTag, s2, [CloseTag(pageTag)]) == ClosePageStep(s2);
    RunAppend(pageTag, s, [OpenTag(pageTag)] + Element(TitleTag, titleContent), [CloseTag(pageTag)]);
    RunAppend(pageTag, s, [OpenTag(pageTag)], Element(TitleTag, titleContent));
  }

  /** Every page in the sequence has a non-empty title and a non-empty text. */
  ghost predicate ValidPages(pages: seq<WikiPage>) {
    forall i :: 0 <= i < |pages| ==> pages[i].title != "" && pages[i].text != ""
  }

  /** The assembler only ever emits pages with both fields non-empty. */
  lemma {:induction false} RunKeepsPagesValid(pageTag: string, s: State, events: seq<Event>)
    requires ValidPages(s.pages)
    ensures ValidPages(Run(pageTag, s, events).pages)
    decreases |events|
  {
    if events != [] {
      RunKeepsPagesValid(pageTag, Step(pageTag, s, events[0]), events[1..]);
    }
  }

  /** The number of events that close an element named `pageTag`. */
  function PageCloseCount(pageTag: string, events: seq<Event>): nat {
    if events == [] then 0
    else (if events[0] == CloseTag(pageTag) then 1 else 0) + PageCloseCount(pageTag, events[1..])
  }

  /**
   * Pages already emitted stay where they are; new ones are appended after them,
   * at most one per page-close event.
   */
  lemma {:induction false} PagesOnlyAppended(pageTag: string, s: State, events: seq<Event>)
    ensures s.pages <= Run(pageTag, s, events).pages
    ensures |Run(pageTag, s, events).pages| <= |s.pages| + PageCloseCount(pageTag, events)
    decreases |events|
  {
    if events != [] {
      var next := Step(pageTag, s, events[0]);
      assert s.pages <= next.pages;
      assert |next.pages| <= |s.pages| + (if events[0] == CloseTag(pageTag) then 1 else 0);
      PagesOnlyAppended(pageTag, next, events[1..]);
    }
  }

  /**
   * Info diagnostics already logged stay where they are, and every page-close
   * event yields exactly one new page or exactly one new info diagnostic; no
   * other event yields either.
   */
  lemma {:induction false} InfoLogOnlyAppended(pageTag: string, s: State, events: seq<Event>)
    requires pageTag != TitleTag && pageTag != TextTag
    ensures s.infoLog <= Run(pageTag, s, events).infoLog
    ensures s.pages <= Run(pageTag, s, events).pages
    ensures |Run(pageTag, s, events).pages| - |s.pages| + |Run(pageTag, s, events).infoLog| - |s.infoLog|
            == PageCloseCount(pageTag, events)
    decreases |events|
  {
    if events != [] {
      var next := Step(pageTag, s, events[0]);
      assert s.infoLog <= next.infoLog && s.pages <= next.pages;
      assert |next.pages| - |s.pages| + |next.infoLog| - |s.infoLog|
             == if events[0] == CloseTag(pageTag) then 1 else 0;
      InfoLogOnlyAppended(pageTag, next, events[1..]);
    }
  }

  /**
   * With the page tag configured as "title" or "text", closing it is taken as
   * closing the field (that case comes first), so no page is ever emitted.
   */
  lemma {:induction false} FieldNamedPageTagEmitsNothing(pageTag: string, s: State, events: seq<Event>)
    requires pageTag == TitleTag || pageTag == TextTag
    ensures Run(pageTag, s, events).pages == s.pages
    decreases |events|
  {
    if events != [] {
      FieldNamedPageTagEmitsNothing(pageTag, Step(pageTag, s, events[0]), events[1..]);
    }
  }

  /** The error diagnostics the events cause, one per error event, in order. */
  function ErrorMessages(events: seq<Event>): (log: seq<string>)
    ensures |log| == ErrorCount(events)
  {
    if events == [] then []
    else (if events[0].Error? then [ErrorMessage(events[0].error)] else []) + ErrorMessages(events[1..])
  }

  /** Each error event appends exactly one error diagnostic, and nothing else does. */
  lemma {:induction false} ErrorLogged(pageTag: string, s: State, events: seq<Event>)
    ensures Run(pageTag, s, events).errorLog == s.errorLog + ErrorMessages(events)
    decreases |events|
  {
    if events != [] {
      var next := Step(pageTag, s, events[0]);
      ErrorLogged(pageTag, next, events[1..]);
      assert next.errorLog == s.errorLog + (if events[0].Error? then [ErrorMessage(events[0].error)] else []);
    }
  }

  /** The first error is latched: a set error never changes, and an unset one becomes the first error event's. */
  lemma {:induction false} FirstErrorLatched(pageTag: string, s: State, events: seq<Event>)
    ensures Run(pageTag, s, events).saxError == if s.saxError.Some? then s.saxError else FirstError(events)
    decreases |events|
  {
    if events != [] {
      FirstErrorLatched(pageTag, Step(pageTag, s, events[0]), events[1..]);
    }
  }
}
