// The outbox's queue file (packages/cli/src/api/queue.ts): one encoded batch per line.
module OutboxFile {
  import opened Wrappers
  import opened Lines
  import opened Outbox

  // JSON text of a batch: free of newlines, and read back as the same batch. Blank lines are not JSON.
  ghost predicate Faithful(encode: Batch -> string, decode: string -> Option<Batch>) {
    decode("") == None && forall b :: '\n' !in encode(b) && decode(encode(b)) == Some(b)
  }

  function Encoded(q: seq<Batch>, encode: Batch -> string): (lines: seq<string>)
    ensures |lines| == |q| && forall i :: 0 <= i < |q| ==> lines[i] == encode(q[i])
  {
    seq(|q|, i requires 0 <= i < |q| => encode(q[i]))
  }

  // persistQueue; an empty queue's missing file reads as the empty text.
  function Persisted(q: seq<Batch>, encode: Batch -> string): string {
    Written(Encoded(q, encode))
  }

  // raw.split("\n"): the complete lines, and the text after the last newline.
  function SplitLines(raw: string): seq<string> {
    Complete(raw) + [Carried(raw)]
  }

  method LoadQueue(raw: string, decode: string -> Option<Batch>) returns (entries: seq<Batch>)
    ensures entries == Parsed(SplitLines(raw), decode)
  {
    var lines := SplitLines(raw);
    entries := [];
    var i := 0;
    while i < |lines|
      invariant i <= |lines| && entries == Parsed(lines[..i], decode)
    {
      assert lines[..i + 1] == lines[..i] + [lines[i]];
      ParsedConcat(lines[..i], [lines[i]], decode);
      assert [lines[i]][1..] == [];
      var parsed := decode(lines[i]);
      if parsed.Some? {
        entries := entries + [parsed.value];
      }
      i := i + 1;
    }
    assert lines[..i] == lines;
  }

  // Main result: whatever lines the file holds, corrupt ones are skipped and every readable batch
  // survives, in order.
  lemma CorruptLinesAreSkipped(lines: seq<string>, decode: string -> Option<Batch>)
    requires decode("") == None && forall l :: l in lines ==> '\n' !in l
    ensures Parsed(SplitLines(Written(lines)), decode) == Parsed(lines, decode)
  {
    WrittenReadsBack(lines);
    ParsedConcat(lines, [""], decode);
    assert [""][1..] == [];
  }

  lemma {:induction false} EncodedParses(q: seq<Batch>, encode: Batch -> string, decode: string -> Option<Batch>)
    requires Faithful(encode, decode)
    ensures Parsed(Encoded(q, encode), decode) == q
  {
    if q != [] {
      EncodedParses(q[1..], encode, decode);
      assert Encoded(q, encode)[1..] == Encoded(q[1..], encode);
    }
  }

  // Main result: a restart reads back the queue that was persisted.
  lemma LoadReadsWhatWasPersisted(q: seq<Batch>, encode: Batch -> string, decode: string -> Option<Batch>)
    requires Faithful(encode, decode)
    ensures Parsed(SplitLines(Persisted(q, encode)), decode) == q
  {
    forall l | l in Encoded(q, encode)
      ensures '\n' !in l
    {
      var i :| 0 <= i < |q| && Encoded(q, encode)[i] == l;
      assert l == encode(q[i]);
    }
    CorruptLinesAreSkipped(Encoded(q, encode), decode);
    EncodedParses(q, encode, decode);
  }
}
