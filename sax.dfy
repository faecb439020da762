/**
 * The tokenizer's side of the interface: the five kinds of event an incremental
 * XML tokenizer in strict mode reports, in document order. The tokenizer itself
 * is not modelled; one chunk of input is represented by the events it yields.
 */
module Sax {
  import opened Wrappers

  /** A tokenization failure; `description` is what the error formatter makes of it. */
  datatype SaxError = SaxError(description: string)

  datatype Event =
    | OpenTag(name: string)
    | Text(characters: string)
    | Cdata(characters: string)
    | CloseTag(name: string)
    | Error(error: SaxError)
  {
    /** Text and CDATA both carry already-decoded character data. */
    predicate IsCharacterData() {
      Text? || Cdata?
    }
  }

  predicate AllCharacterData(events: seq<Event>) {
    forall i :: 0 <= i < |events| ==> events[i].IsCharacterData()
  }

  /** The character data carried by a run of text and CDATA events, in order. */
  function Fragments(events: seq<Event>): (fragments: seq<string>)
    requires AllCharacterData(events)
    ensures |fragments| == |events|
    ensures forall i :: 0 <= i < |events| ==> fragments[i] == events[i].characters
  {
    if events == [] then [] else [events[0].characters] + Fragments(events[1..])
  }

  /** The error of the first error event, if there is one. */
  function FirstError(events: seq<Event>): (first: Option<SaxError>)
    ensures first.None? <==> forall i :: 0 <= i < |events| ==> !events[i].Error?
    ensures first.Some? ==> exists i :: 0 <= i < |events| && events[i] == Error(first.value)
                                        && forall j :: 0 <= j < i ==> !events[j].Error?
  {
    if events == [] then None
    else if events[0].Error? then Some(events[0].error)
    else
      var rest := FirstError(events[1..]);
      assert rest.Some? ==> exists i :: 1 <= i < |events| && events[i] == Error(rest.value)
                                        && forall j :: 0 <= j < i ==> !events[j].Error? by {
        if rest.Some? {
          var k :| 0 <= k < |events[1..]| && events[1..][k] == Error(rest.value)
                   && forall j :: 0 <= j < k ==> !events[1..][j].Error?;
          assert forall j :: 1 <= j < k + 1 ==> !events[j].Error? by {
            forall j | 1 <= j < k + 1 ensures !events[j].Error? {
              assert events[j] == events[1..][j - 1];
            }
          }
        }
      }
      rest
  }

  /** The number of error events. */
  function ErrorCount(events: seq<Event>): (n: nat)
    ensures n <= |events|
    ensures n == 0 <==> FirstError(events).None?
  {
    if events == [] then 0 else (if events[0].Error? then 1 else 0) + ErrorCount(events[1..])
  }

  /** The events of a sequence of chunks, one chunk after the other. */
  function Flatten(chunks: seq<seq<Event>>): seq<Event> {
    if chunks == [] then [] else chunks[0] + Flatten(chunks[1..])
  }

  lemma {:induction false} FlattenAppend(a: seq<seq<Event>>, b: seq<seq<Event>>)
    ensures Flatten(a + b) == Flatten(a) + Flatten(b)
  {
    if a == [] {
      assert a + b == b;
    } else {
      assert (a + b)[1..] == a[1..] + b;
      FlattenAppend(a[1..], b);
    }
  }

  /** Once an error has occurred in a prefix, later events do not change which error is first. */
  lemma {:induction false} FirstErrorAppend(a: seq<Event>, b: seq<Event>)
    ensures FirstError(a + b) == if FirstError(a).Some? then FirstError(a) else FirstError(b)
  {
    if a == [] {
      assert a + b == b;
    } else {
      assert (a + b)[1..] == a[1..] + b;
      FirstErrorAppend(a[1..], b);
    }
  }
}
