// The launcher's fetch signal (packages/cli/src/claude/ptyFetchSignal.ts): newline-delimited events
// that reach the session in arbitrary chunks.
module FetchSignal {
  import opened Wrappers
  import opened Lines

  datatype FetchEvent = FetchStart(id: int) | FetchEnd(id: int)

  // A line that is blank, malformed or not a fetch event parses to None.
  type Parser = string -> Option<FetchEvent>

  // One chunk of a connection: the events of the lines it completes, and the text carried over.
  method HandleConnectionData(chunk: string, buffer: string, parse: Parser)
    returns (events: seq<FetchEvent>, rest: string)
    ensures events == Parsed(Complete(buffer + chunk), parse) && rest == Carried(buffer + chunk)
  {
    var whole := buffer + chunk;
    rest, events := whole, [];
    var newline := FirstNewline(rest);
    while newline < |rest|
      invariant newline == FirstNewline(rest)
      invariant Carried(rest) == Carried(whole)
      invariant events + Parsed(Complete(rest), parse) == Parsed(Complete(whole), parse)
      decreases |rest|
    {
      var line := rest[..newline];
      rest := rest[newline + 1..];
      var event := parse(line);
      OneMore(line, rest, parse);
      Reassociate(events, if event.Some? then [event.value] else [], Parsed(Complete(rest), parse));
      if event.Some? {
        events := events + [event.value];
      }
      newline := FirstNewline(rest);
    }
  }

  lemma OneMore(line: string, rest: string, parse: Parser)
    ensures Parsed([line] + Complete(rest), parse)
         == (if parse(line).Some? then [parse(line).value] else []) + Parsed(Complete(rest), parse)
  {
  }

  // A whole connection, chunk by chunk: all its events, and the unfinished line it carries.
  function Received(chunks: seq<string>, parse: Parser): (seq<FetchEvent>, string) {
    if chunks == [] then ([], "")
    else
      var (events, buffer) := Received(chunks[..|chunks| - 1], parse);
      var stream := buffer + chunks[|chunks| - 1];
      (events + Parsed(Complete(stream), parse), Carried(stream))
  }

  // Main result: however the stream is cut into chunks, the events are those of splitting the whole
  // stream at its newlines, and the carried buffer is what follows the last one.
  lemma {:induction false} ChunksDoNotMatter(chunks: seq<string>, parse: Parser)
    ensures Received(chunks, parse) == (Parsed(Complete(Fed(chunks)), parse), Carried(Fed(chunks)))
    ensures '\n' !in Received(chunks, parse).1
  {
    if chunks != [] {
      var before, last := chunks[..|chunks| - 1], chunks[|chunks| - 1];
      ChunksDoNotMatter(before, parse);
      CutAnywhere(Fed(before), last);
      ParsedConcat(Complete(Fed(before)), Complete(Carried(Fed(before)) + last), parse);
    }
  }
}
