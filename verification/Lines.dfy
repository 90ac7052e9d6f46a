// Newline-delimited text: how the fetch signal is framed and how the outbox's queue file is read.
module Lines {
  import opened Wrappers

  function FirstNewline(s: string): (i: nat)
    ensures i <= |s| && '\n' !in s[..i] && (i < |s| ==> s[i] == '\n')
  {
    if s == "" || s[0] == '\n' then 0 else 1 + FirstNewline(s[1..])
  }

  // The complete lines of s, and what follows its last newline.
  function Complete(s: string): seq<string>
    decreases |s|
  {
    var i := FirstNewline(s);
    if i == |s| then [] else [s[..i]] + Complete(s[i + 1..])
  }

  function Carried(s: string): (r: string)
    ensures '\n' !in r
    decreases |s|
  {
    var i := FirstNewline(s);
    if i == |s| then s else Carried(s[i + 1..])
  }

  lemma {:induction false} FirstNewlineIs(s: string, i: nat)
    requires i <= |s| && '\n' !in s[..i] && (i < |s| ==> s[i] == '\n')
    ensures FirstNewline(s) == i
  {
  }

  lemma SplitFirst(line: string, rest: string)
    requires '\n' !in line
    ensures Complete(line + "\n" + rest) == [line] + Complete(rest) && Carried(line + "\n" + rest) == Carried(rest)
  {
    var s, i := line + "\n" + rest, |line|;
    assert s[..i] == line && s[i + 1..] == rest;
    FirstNewlineIs(s, i);
  }

  // Feeding a stream in two chunks, carrying what follows the last newline, yields the same lines.
  lemma {:induction false} CutAnywhere(a: string, b: string)
    ensures Complete(a + b) == Complete(a) + Complete(Carried(a) + b)
    ensures Carried(a + b) == Carried(Carried(a) + b)
    decreases |a|
  {
    var i := FirstNewline(a);
    if i == |a| {
      assert Complete(a) == [] && Carried(a) == a;
    } else {
      var line, rest := a[..i], a[i + 1..];
      assert a == line + "\n" + rest && a + b == line + "\n" + (rest + b);
      SplitFirst(line, rest);
      SplitFirst(line, rest + b);
      CutAnywhere(rest, b);
      Reassociate([line], Complete(rest), Complete(Carried(rest) + b));
    }
  }

  function Fed(chunks: seq<string>): string {
    if chunks == [] then "" else Fed(chunks[..|chunks| - 1]) + chunks[|chunks| - 1]
  }

  function Parsed<T>(lines: seq<string>, parse: string -> Option<T>): seq<T> {
    if lines == [] then []
    else (if parse(lines[0]).Some? then [parse(lines[0]).value] else []) + Parsed(lines[1..], parse)
  }

  lemma {:induction false} ParsedConcat<T>(a: seq<string>, b: seq<string>, parse: string -> Option<T>)
    ensures Parsed(a + b, parse) == Parsed(a, parse) + Parsed(b, parse)
  {
    if a == [] {
      assert a + b == b;
    } else {
      ParsedConcat(a[1..], b, parse);
      assert (a + b)[1..] == a[1..] + b;
    }
  }

  // Newline-free lines, each followed by a newline.
  function Written(lines: seq<string>): string {
    if lines == [] then "" else lines[0] + "\n" + Written(lines[1..])
  }

  lemma {:induction false} WrittenReadsBack(lines: seq<string>)
    requires forall l :: l in lines ==> '\n' !in l
    ensures Complete(Written(lines)) == lines && Carried(Written(lines)) == ""
  {
    if lines != [] {
      SplitFirst(lines[0], Written(lines[1..]));
      WrittenReadsBack(lines[1..]);
    }
  }
}
