/**
 * `WikiTransform` (src/transform.ts) as an object whose handlers update its
 * private fields in place. Pages handed to `this.push` and messages sent to the
 * logger are recorded in output fields. Each handler is proved to perform the
 * corresponding step of Assembly, so a whole run equals Assembly.Run.
 */
module Transform {
  import opened Wrappers
  import opened Page
  import opened Sax
  import opened Assembly
  import AssemblyLemmas

  class WikiTransform {
    const pageTag: string

    var characterBuffer: seq<string>
    var bufferingCharacters: bool
    var currentTitle: Option<string>
    var currentText: Option<string>
    var saxError: Option<SaxError>

    /** The pages pushed downstream, in order. */
    var pages: seq<WikiPage>
    /** The messages sent to the logger at info and at error level. */
    var infoLog: seq<string>
    var errorLog: seq<string>

    /** All fields, as a value of the reference state. */
    ghost function Model(): State
      reads this
    {
      State(characterBuffer, bufferingCharacters, currentTitle, currentText, saxError,
            pages, infoLog, errorLog)
    }

    /** A fresh transform; the page tag defaults to "page". */
    constructor (pageTagOption: Option<string>)
      ensures pageTag == pageTagOption.GetOr(DefaultPageTag)
      ensures Model() == Initial
      ensures characterBuffer == [] && !bufferingCharacters
      ensures currentTitle.None? && currentText.None? && saxError.None?
      ensures pages == [] && infoLog == [] && errorLog == []
    {
      pageTag := pageTagOption.GetOr(DefaultPageTag);
      characterBuffer := [];
      bufferingCharacters := false;
      currentTitle, currentText := None, None;
      saxError := None;
      pages, infoLog, errorLog := [], [], [];
    }

    /** The "opentag" handler: the page tag is tested before the field names. */
    method OnOpenTag(name: string)
      modifies this
      ensures Model() == OpenTagStep(pageTag, old(Model()), name)
      ensures name == pageTag ==> currentTitle.None? && currentText.None?
                                  && bufferingCharacters == old(bufferingCharacters)
      ensures name != pageTag && (name == TitleTag || name == TextTag) ==>
                bufferingCharacters && currentTitle == old(currentTitle) && currentText == old(currentText)
      ensures name != pageTag && name != TitleTag && name != TextTag ==> Model() == old(Model())
      ensures characterBuffer == old(characterBuffer) && saxError == old(saxError)
      ensures pages == old(pages) && infoLog == old(infoLog) && errorLog == old(errorLog)
    {
      if name == pageTag {
        currentTitle := None;
        currentText := None;
      } else if name == TitleTag || name == TextTag {
        bufferingCharacters := true;
      }
    }

    /** The "text" handler: the fragment is kept only while buffering. */
    method OnText(characters: string)
      modifies this
      ensures Model() == CharactersStep(old(Model()), characters)
      ensures characterBuffer
              == if old(bufferingCharacters) then old(characterBuffer) + [characters] else old(characterBuffer)
      ensures old(Model()).(characterBuffer := characterBuffer) == Model()
    {
      if bufferingCharacters {
        characterBuffer := characterBuffer + [characters];
      }
    }

    /** The "cdata" handler, which does exactly what the "text" handler does. */
    method OnCdata(characters: string)
      modifies this
      ensures Model() == CharactersStep(old(Model()), characters)
      ensures characterBuffer
              == if old(bufferingCharacters) then old(characterBuffer) + [characters] else old(characterBuffer)
      ensures old(Model()).(characterBuffer := characterBuffer) == Model()
    {
      if bufferingCharacters {
        characterBuffer := characterBuffer + [characters];
      }
    }

    /**
     * The "closetag" handler: "title", then "text", then the page tag. Closing a
     * field stores the joined buffer in it; closing a page validates the title,
     * then the text, and emits one page only when both are non-empty.
     */
    method OnCloseTag(name: string)
      modifies this
      ensures Model() == CloseTagStep(pageTag, old(Model()), name)
      ensures name == TitleTag ==>
                !bufferingCharacters && characterBuffer == [] && currentTitle == Some(Join(old(characterBuffer)))
                && currentText == old(currentText) && pages == old(pages) && infoLog == old(infoLog)
      ensures name == TextTag ==>
                !bufferingCharacters && characterBuffer == [] && currentText == Some(Join(old(characterBuffer)))
                && currentTitle == old(currentTitle) && pages == old(pages) && infoLog == old(infoLog)
      ensures name != TitleTag && name != TextTag && name == pageTag ==>
                characterBuffer == old(characterBuffer) && bufferingCharacters == old(bufferingCharacters)
                && currentTitle == old(currentTitle) && currentText == old(currentText)
                && (if Falsy(old(currentTitle)) then
                      pages == old(pages) && infoLog == old(infoLog) + [NoTitleMessage]
                    else if Falsy(old(currentText)) then
                      pages == old(pages) && infoLog == old(infoLog) + [NoTextMessage(old(currentTitle).value)]
                    else
                      pages == old(pages) + [WikiPage(old(currentTitle).value, old(currentText).value)]
                      && infoLog == old(infoLog))
      ensures name != TitleTag && name != TextTag && name != pageTag ==> Model() == old(Model())
      ensures saxError == old(saxError) && errorLog == old(errorLog)
    {
      if name == TitleTag {
        bufferingCharacters := false;
        currentTitle := Some(Join(characterBuffer));
        characterBuffer := [];
      } else if name == TextTag {
        bufferingCharacters := false;
        currentText := Some(Join(characterBuffer));
        characterBuffer := [];
      } else if name == pageTag {
        if Falsy(currentTitle) {
          infoLog := infoLog + [NoTitleMessage];
          return;
        }
        if Falsy(currentText) {
          infoLog := infoLog + [NoTextMessage(currentTitle.value)];
          return;
        }
        pages := pages + [WikiPage(currentTitle.value, currentText.value)];
      }
    }

    /** The "error" handler: always logs; keeps only the first error. */
    method OnError(err: SaxError)
      modifies this
      ensures Model() == ErrorStep(old(Model()), err)
      ensures errorLog == old(errorLog) + [ErrorMessage(err)]
      ensures saxError == if old(saxError).None? then Some(err) else old(saxError)
      ensures old(Model()).(errorLog := errorLog, saxError := saxError) == Model()
    {
      errorLog := errorLog + [ErrorMessage(err)];
      if saxError.None? {
        saxError := Some(err);
      }
    }

    /** One tokenizer event, routed to the handler registered for its kind. */
    method OnEvent(e: Event)
      modifies this
      ensures Model() == Step(pageTag, old(Model()), e)
    {
      match e
      case OpenTag(name) => OnOpenTag(name);
      case Text(characters) => OnText(characters);
      case Cdata(characters) => OnCdata(characters);
      case CloseTag(name) => OnCloseTag(name);
      case Error(err) => OnError(err);
    }

    /** The tokenizer consuming input: the events it reports, handled one at a time in order. */
    method Feed(events: seq<Event>)
      modifies this
      ensures Model() == Run(pageTag, old(Model()), events)
    {
      var i := 0;
      while i < |events|
        invariant 0 <= i <= |events|
        invariant Model() == Run(pageTag, old(Model()), events[..i])
      {
        AssemblyLemmas.RunAppend(pageTag, old(Model()), events[..i], [events[i]]);
        assert events[..i + 1] == events[..i] + [events[i]];
        OnEvent(events[i]);
        i := i + 1;
      }
      assert events[..i] == events;
    }

    /**
     * `_transform`: the tokenizer is given one chunk, which yields `events`; the
     * callback then receives the latched error, if any.
     */
    method TransformChunk(events: seq<Event>) returns (failure: Option<SaxError>)
      modifies this
      ensures Model() == Run(pageTag, old(Model()), events)
      ensures failure == saxError
      ensures failure == if old(saxError).Some? then old(saxError) else FirstError(events)
    {
      Feed(events);
      AssemblyLemmas.FirstErrorLatched(pageTag, old(Model()), events);
      failure := saxError;
    }

    /**
     * `_flush`: the tokenizer is told the input has ended, which yields its last
     * `events`; the callback then receives the latched error, if any.
     */
    method Flush(events: seq<Event>) returns (failure: Option<SaxError>)
      modifies this
      ensures Model() == Run(pageTag, old(Model()), events)
      ensures failure == saxError
      ensures failure == if old(saxError).Some? then old(saxError) else FirstError(events)
    {
      Feed(events);
      AssemblyLemmas.FirstErrorLatched(pageTag, old(Model()), events);
      failure := saxError;
    }
  }

  /**
   * A whole document through a fresh transform: each chunk's events, then the
   * events of the end of input. The stream stops at the first callback that
   * reports an error, so nothing after that chunk is processed. The reported
   * failure is the document's first tokenization error, and without one the
   * pages are exactly those the reference assembler emits for all events,
   * however the events were split into chunks.
   */
  method ProcessStream(pageTagOption: Option<string>, chunks: seq<seq<Event>>, endEvents: seq<Event>)
    returns (pages: seq<WikiPage>, failure: Option<SaxError>)
    ensures failure == FirstError(Flatten(chunks) + endEvents)
    ensures failure.None? ==>
              pages == Assemble(pageTagOption.GetOr(DefaultPageTag), Flatten(chunks) + endEvents).pages
    ensures pages <= Assemble(pageTagOption.GetOr(DefaultPageTag), Flatten(chunks) + endEvents).pages
  {
    var transform := new WikiTransform(pageTagOption);
    ghost var tag := transform.pageTag;
    ghost var all := Flatten(chunks) + endEvents;
    failure := None;
    var i := 0;
    while i < |chunks| && failure.None?
      invariant 0 <= i <= |chunks|
      invariant transform.Model() == Assemble(tag, Flatten(chunks[..i]))
      invariant failure == transform.saxError == FirstError(Flatten(chunks[..i]))
    {
      failure := transform.TransformChunk(chunks[i]);
      AssemblyLemmas.RunAppend(tag, Initial, Flatten(chunks[..i]), chunks[i]);
      FlattenAppend(chunks[..i], [chunks[i]]);
      assert chunks[..i + 1] == chunks[..i] + [chunks[i]];
      assert [chunks[i]][1..] == [];
      assert Flatten([chunks[i]]) == chunks[i] + Flatten([]) == chunks[i];
      FirstErrorAppend(Flatten(chunks[..i]), chunks[i]);
      i := i + 1;
    }
    ghost var done := Flatten(chunks[..i]);
    ghost var rest := Flatten(chunks[i..]) + endEvents;
    FlattenAppend(chunks[..i], chunks[i..]);
    assert chunks[..i] + chunks[i..] == chunks;
    assert all == done + rest;
    FirstErrorAppend(done, rest);
    if failure.None? {
      assert i == |chunks| && rest == endEvents;
      failure := transform.Flush(endEvents);
      AssemblyLemmas.RunAppend(tag, Initial, done, endEvents);
    } else {
      AssemblyLemmas.RunAppend(tag, Initial, done, rest);
      AssemblyLemmas.PagesOnlyAppended(tag, Assemble(tag, done), rest);
    }
    pages := transform.pages;
  }
}
