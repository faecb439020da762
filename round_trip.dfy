/**
 * The serializer of src/page.ts read back by the assembler: the events a
 * tokenizer reports for `WikiPageToXml(page)`, the markup those events stand
 * for, and the proof that assembling them gives back exactly the page.
 */
module RoundTrip {
  import opened Wrappers
  import opened Page
  import opened Sax
  import opened Assembly
  import opened AssemblyLemmas

  /**
   * The events for the serializer's template: the page element, the whitespace
   * between elements as text events, and each field as one CDATA section.
   */
  function PageTokens(page: WikiPage): seq<Event> {
    [OpenTag(DefaultPageTag), Text(Indent)]
    + Element(TitleTag, [Cdata(page.title)])
    + [Text(Indent)]
    + Element(TextTag, [Cdata(page.text)])
    + [Text(Newline), CloseTag(DefaultPageTag)]
  }

  /** The XML markup an event stands for (character data as is, which suffices for whitespace). */
  function Markup(e: Event): string {
    match e
    case OpenTag(name) => StartTag(name)
    case Text(characters) => characters
    case Cdata(characters) => CdataOpen + characters + CdataClose
    case CloseTag(name) => EndTag(name)
    case Error(_) => ""
  }

  /** The markup of a whole event sequence. */
  function Render(events: seq<Event>): string {
    if events == [] then "" else Markup(events[0]) + Render(events[1..])
  }

  lemma {:induction false} RenderAppend(a: seq<Event>, b: seq<Event>)
    ensures Render(a + b) == Render(a) + Render(b)
  {
    if a == [] {
      assert a + b == b;
    } else {
      assert (a + b)[1..] == a[1..] + b;
      RenderAppend(a[1..], b);
    }
  }

  lemma RenderSingle(e: Event)
    ensures Render([e]) == Markup(e)
  {
    assert [e][1..] == [];
  }

  /** The markup of one field element is the template's segment for that field. */
  lemma RenderElement(name: string, characters: string)
    ensures Render(Element(name, [Cdata(characters)]))
            == (StartTag(name) + CdataOpen) + characters + (CdataClose + EndTag(name))
  {
    RenderAppend([OpenTag(name)] + [Cdata(characters)], [CloseTag(name)]);
    RenderAppend([OpenTag(name)], [Cdata(characters)]);
    RenderSingle(OpenTag(name));
    RenderSingle(Cdata(characters));
    RenderSingle(CloseTag(name));
  }

  /** The token list is exactly the serializer's output, event by event. */
  lemma SerializedPageTokens(page: WikiPage)
    ensures Render(PageTokens(page)) == WikiPageToXml(page)
  {
    var head := [OpenTag(DefaultPageTag), Text(Indent)];
    var title := Element(TitleTag, [Cdata(page.title)]);
    var gap := [Text(Indent)];
    var text := Element(TextTag, [Cdata(page.text)]);
    var tail := [Text(Newline), CloseTag(DefaultPageTag)];
    assert PageTokens(page) == head + title + gap + text + tail;
    RenderAppend(head + title + gap + text, tail);
    RenderAppend(head + title + gap, text);
    RenderAppend(head + title, gap);
    RenderAppend(head, title);
    RenderAppend([OpenTag(DefaultPageTag)], [Text(Indent)]);
    RenderSingle(OpenTag(DefaultPageTag));
    RenderSingle(Text(Indent));
    RenderAppend([Text(Newline)], [CloseTag(DefaultPageTag)]);
    RenderSingle(Text(Newline));
    RenderSingle(CloseTag(DefaultPageTag));
    RenderElement(TitleTag, page.title);
    RenderElement(TextTag, page.text);
  }

  /**
   * Assembling the serialized page, from any state that is not inside a field,
   * emits exactly that page and logs nothing, provided both fields are non-empty.
   * The whitespace text events are dropped because buffering is off between fields.
   */
  lemma PageRoundTrip(s: State, page: WikiPage)
    requires page.title != "" && page.text != ""
    requires !s.bufferingCharacters && s.characterBuffer == []
    ensures Run(DefaultPageTag, s, PageTokens(page))
            == s.(currentTitle := Some(page.title), currentText := Some(page.text), pages := s.pages + [page])
  {
    var tag := DefaultPageTag;
    var head := [OpenTag(tag), Text(Indent)];
    var title := Element(TitleTag, [Cdata(page.title)]);
    var gap := [Text(Indent)];
    var text := Element(TextTag, [Cdata(page.text)]);
    var tail := [Text(Newline), CloseTag(tag)];
    assert PageTokens(page) == head + title + gap + text + tail;
    RunAppend(tag, s, head + title + gap + text, tail);
    RunAppend(tag, s, head + title + gap, text);
    RunAppend(tag, s, head + title, gap);
    RunAppend(tag, s, head, title);

    var s1 := s.(currentTitle := None, currentText := None);
    assert Run(tag, s, head) == s1 by {
      RunAppend(tag, s, [OpenTag(tag)], [Text(Indent)]);
      RunSingle(tag, s, OpenTag(tag));
      RunSingle(tag, s1, Text(Indent));
    }
    FieldValue(tag, s1, TitleTag, page.title);
    var s2 := WithField(s1, TitleTag, page.title);
    RunSingle(tag, s2, Text(Indent));
    FieldValue(tag, s2, TextTag, page.text);
    var s3 := WithField(s2, TextTag, page.text);
    assert Run(tag, s3, tail) == ClosePageStep(s3) by {
      RunAppend(tag, s3, [Text(Newline)], [CloseTag(tag)]);
      RunSingle(tag, s3, Text(Newline));
      RunSingle(tag, s3, CloseTag(tag));
    }
  }

  /** A field element holding one CDATA section, met with an empty buffer, takes that section's characters. */
  lemma FieldValue(tag: string, s: State, field: string, value: string)
    requires field == TitleTag || field == TextTag
    requires field != tag
    requires s.characterBuffer == []
    ensures Run(tag, s, Element(field, [Cdata(value)])) == WithField(s, field, value)
  {
    assert AllCharacterData([Cdata(value)]);
    assert s.characterBuffer + Fragments([Cdata(value)]) == [value];
    assert [value][1..] == [];
    assert Join([value]) == value + Join([]);
    assert Join(s.characterBuffer + Fragments([Cdata(value)])) == value;
    FieldElement(tag, s, field, [Cdata(value)]);
  }

  /** A fresh assembler given the serialized page emits `[page]` and logs nothing. */
  lemma FreshPageRoundTrip(page: WikiPage)
    requires page.title != "" && page.text != ""
    ensures var r := Assemble(DefaultPageTag, PageTokens(page));
            r.pages == [page] && r.infoLog == [] && r.errorLog == [] && r.saxError.None?
  {
    PageRoundTrip(Initial, page);
  }

  /** The events of the pages serialized one after the other, each followed by a line break. */
  function PagesTokens(pages: seq<WikiPage>): seq<Event> {
    if pages == [] then [] else PageTokens(pages[0]) + [Text(Newline)] + PagesTokens(pages[1..])
  }

  /** A `wiki` container element around the serialized pages. */
  function WikiTokens(pages: seq<WikiPage>): seq<Event> {
    [OpenTag("wiki")] + PagesTokens(pages) + [CloseTag("wiki")]
  }

  lemma {:induction false} PagesRoundTrip(s: State, pages: seq<WikiPage>)
    requires ValidPages(pages)
    requires !s.bufferingCharacters && s.characterBuffer == []
    ensures var r := Run(DefaultPageTag, s, PagesTokens(pages));
            r.pages == s.pages + pages && r.infoLog == s.infoLog && r.errorLog == s.errorLog
            && r.saxError == s.saxError && !r.bufferingCharacters && r.characterBuffer == []
    decreases |pages|
  {
    if pages == [] {
      assert s.pages + pages == s.pages;
    } else {
      var tag := DefaultPageTag;
      var first := PageTokens(pages[0]);
      RunAppend(tag, s, first + [Text(Newline)], PagesTokens(pages[1..]));
      RunAppend(tag, s, first, [Text(Newline)]);
      PageRoundTrip(s, pages[0]);
      var next := Run(tag, s, first + [Text(Newline)]);
      assert ValidPages(pages[1..]) by {
        forall i | 0 <= i < |pages[1..]| ensures pages[1..][i].title != "" && pages[1..][i].text != "" {
          assert pages[1..][i] == pages[i + 1];
        }
      }
      PagesRoundTrip(next, pages[1..]);
      assert s.pages + pages == s.pages + [pages[0]] + pages[1..];
    }
  }

  /**
   * Several serialized pages inside a container come out as exactly those pages,
   * in document order, with nothing logged.
   */
  lemma WikiRoundTrip(pages: seq<WikiPage>)
    requires ValidPages(pages)
    ensures var r := Assemble(DefaultPageTag, WikiTokens(pages));
            r.pages == pages && r.infoLog == [] && r.errorLog == [] && r.saxError.None?
  {
    var tag := DefaultPageTag;
    RunAppend(tag, Initial, [OpenTag("wiki")] + PagesTokens(pages), [CloseTag("wiki")]);
    RunAppend(tag, Initial, [OpenTag("wiki")], PagesTokens(pages));
    assert Run(tag, Initial, [OpenTag("wiki")]) == Initial;
    PagesRoundTrip(Initial, pages);
  }
}
