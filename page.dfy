/** The record a page element is assembled into, and its XML serializer (src/page.ts). */
module Page {

  /** A wiki page: a value with no identity beyond its two fields. */
  datatype WikiPage = WikiPage(title: string, text: string)

  /** The markup of a start tag and of an end tag. */
  function StartTag(name: string): string { "<" + name + ">" }
  function EndTag(name: string): string { "</" + name + ">" }

  const CdataOpen := "<![CDATA["
  const CdataClose := "]]>"

  // The pieces of the serializer's fixed template.
  const PageOpen := StartTag("page")
  const PageClose := EndTag("page")
  const TitleOpen := StartTag("title") + CdataOpen
  const TitleClose := CdataClose + EndTag("title")
  const TextOpen := StartTag("text") + CdataOpen
  const TextClose := CdataClose + EndTag("text")
  /** The line break and two-space indentation before each field element. */
  const Indent := "\n  "
  /** The line break before the closing page tag. */
  const Newline := "\n"

  /** Where the title starts in the serialized page. */
  const TitleStart := |PageOpen| + |Indent| + |TitleOpen|

  /** How many characters the template adds around the two field values. */
  const TemplateLength := TitleStart + |TitleClose| + |Indent| + |TextOpen| + |TextClose| + |Newline| + |PageClose|

  /** Where the text starts in the serialization of `page`. */
  function TextStart(page: WikiPage): nat {
    TitleStart + |page.title| + |TitleClose| + |Indent| + |TextOpen|
  }

  /**
   * The page as an XML fragment: a `page` element holding a `title` and a `text`
   * element, each wrapping its field verbatim in a CDATA section. Nothing is
   * escaped, so a field containing "]]>" ends its CDATA section early.
   */
  function WikiPageToXml(page: WikiPage): (xml: string)
    ensures |xml| == TemplateLength + |page.title| + |page.text|
    ensures PageOpen <= xml
    ensures xml[|xml| - |PageClose|..] == PageClose
    ensures xml[TitleStart - |TitleOpen|..TitleStart] == TitleOpen
    ensures xml[TitleStart..TitleStart + |page.title|] == page.title
    ensures xml[TitleStart + |page.title|..TitleStart + |page.title| + |TitleClose|] == TitleClose
    ensures TitleStart + |page.title| + |TitleClose| <= TextStart(page) - |TextOpen|
    ensures xml[TextStart(page) - |TextOpen|..TextStart(page)] == TextOpen
    ensures xml[TextStart(page)..TextStart(page) + |page.text|] == page.text
    ensures xml[TextStart(page) + |page.text|..TextStart(page) + |page.text| + |TextClose|] == TextClose
  {
    var titleElement := TitleOpen + page.title + TitleClose;
    var textElement := TextOpen + page.text + TextClose;
    var xml := PageOpen + Indent + titleElement + Indent + textElement + (Newline + PageClose);
    assert xml == (PageOpen + Indent + TitleOpen + page.title)
                  + (TitleClose + Indent + TextOpen + page.text)
                  + (TextClose + Newline + PageClose);
    xml
  }
}
