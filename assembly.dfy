/**
 * The page-assembly state machine of `WikiTransform` (src/transform.ts) as a pure
 * fold over tokenizer events. This is the reference the class in module Transform
 * is proved to follow, one handler call at a time.
 */
module Assembly {
  import opened Wrappers
  import opened Page
  import opened Sax

  /** The page tag when none is configured. */
  const DefaultPageTag := "page"
  const TitleTag := "title"
  const TextTag := "text"

  /** The info diagnostic for a page closed without a title. */
  const NoTitleMessage := "Page without title!"

  /** The info diagnostic for a page closed with a title but without text. */
  function NoTextMessage(title: string): string {
    "Page '" + title + "' has no text!"
  }

  /** The error diagnostic logged for each tokenization failure. */
  function ErrorMessage(err: SaxError): string {
    "Error while parsing page: " + err.description
  }

  /** `Array.prototype.join("")`: the fragments concatenated in order. */
  function Join(fragments: seq<string>): string {
    if fragments == [] then "" else fragments[0] + Join(fragments[1..])
  }

  /** JavaScript falsiness of an optional string: unset or empty. */
  predicate Falsy(field: Option<string>) {
    field.None? || field.value == ""
  }

  /**
   * The assembler's private fields, together with what it has handed on: the
   * pages pushed downstream and the messages sent to the logger.
   */
  datatype State = State(
    characterBuffer: seq<string>,
    bufferingCharacters: bool,
    currentTitle: Option<string>,
    currentText: Option<string>,
    saxError: Option<SaxError>,
    pages: seq<WikiPage>,
    infoLog: seq<string>,
    errorLog: seq<string>)

  /** The state of a freshly constructed transform. */
  const Initial := State([], false, None, None, None, [], [], [])

  function OpenTagStep(pageTag: string, s: State, name: string): State {
    if name == pageTag then s.(currentTitle := None, currentText := None)
    else if name == TitleTag || name == TextTag then s.(bufferingCharacters := true)
    else s
  }

  /** The text and the CDATA handlers, which are the same. */
  function CharactersStep(s: State, characters: string): State {
    if s.bufferingCharacters then s.(characterBuffer := s.characterBuffer + [characters]) else s
  }

  function ClosePageStep(s: State): State {
    if Falsy(s.currentTitle) then s.(infoLog := s.infoLog + [NoTitleMessage])
    else if Falsy(s.currentText) then s.(infoLog := s.infoLog + [NoTextMessage(s.currentTitle.value)])
    else s.(pages := s.pages + [WikiPage(s.currentTitle.value, s.currentText.value)])
  }

  function CloseTagStep(pageTag: string, s: State, name: string): State {
    if name == TitleTag then
      s.(bufferingCharacters := false, currentTitle := Some(Join(s.characterBuffer)), characterBuffer := [])
    else if name == TextTag then
      s.(bufferingCharacters := false, currentText := Some(Join(s.characterBuffer)), characterBuffer := [])
    else if name == pageTag then ClosePageStep(s)
    else s
  }

  function ErrorStep(s: State, err: SaxError): State {
    s.(errorLog := s.errorLog + [ErrorMessage(err)],
       saxError := if s.saxError.None? then Some(err) else s.saxError)
  }

  /** One tokenizer event dispatched to its handler. */
  function Step(pageTag: string, s: State, e: Event): State {
    match e
    case OpenTag(name) => OpenTagStep(pageTag, s, name)
    case Text(characters) => CharactersStep(s, characters)
    case Cdata(characters) => CharactersStep(s, characters)
    case CloseTag(name) => CloseTagStep(pageTag, s, name)
    case Error(err) => ErrorStep(s, err)
  }

  /** The events handled in order, starting from `s`. */
  function Run(pageTag: string, s: State, events: seq<Event>): State
    decreases |events|
  {
    if events == [] then s else Run(pageTag, Step(pageTag, s, events[0]), events[1..])
  }

  /** What a fresh transform configured with `pageTag` makes of `events`. */
  function Assemble(pageTag: string, events: seq<Event>): State {
    Run(pageTag, Initial, events)
  }
}
