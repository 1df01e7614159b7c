/**
  The cache file's text: printing a list of estimates, writing it over an existing file, and
  reading it back line by line.
 */
module CacheText {
  import opened Options
  import opened Ordering
  import opened Estimates

  const OPEN_BRACKET := "[\n"
  const CLOSE_BRACKET := "\n]"
  const COMMA_SEPARATOR := "\n,\n"
  const DATA_WINDOW_SIZE: nat := 100

  /** The encoding of one value as JSON text, and its decoding. */
  datatype Codec = Codec(encode: Estimate -> string, decode: string -> Option<Estimate>) {

    /**
      Decoding undoes encoding, and an encoding is a line of at least two characters: JSON text
      escapes newlines inside strings (section 7 of RFC 8259) and objects have braces.
     */
    ghost predicate Valid() {
      && encode(EmptyArray) == "[]"
      && forall e :: decode(encode(e)) == Some(e) && '\n' !in encode(e) && |encode(e)| > 1
    }
  }

  // ----- printing -----

  function Encodings(codec: Codec, s: seq<Estimate>): (r: seq<string>)
    ensures |r| == |s| && forall i :: 0 <= i < |s| ==> r[i] == codec.encode(s[i])
  {
    seq(|s|, i requires 0 <= i < |s| => codec.encode(s[i]))
  }

  function Join(lines: seq<string>): string {
    if lines == [] then "" else if |lines| == 1 then lines[0]
    else lines[0] + COMMA_SEPARATOR + Join(lines[1..])
  }

  function Print(codec: Codec, s: seq<Estimate>): string {
    OPEN_BRACKET + Join(Encodings(codec, s)) + CLOSE_BRACKET
  }

  lemma {:induction false} JoinSplit(a: seq<string>, b: seq<string>)
    requires a != [] && b != []
    ensures Join(a + b) == Join(a) + COMMA_SEPARATOR + Join(b)
  {
    assert (a + b)[1..] == a[1..] + b;
    if |a| > 1 { JoinSplit(a[1..], b); }
  }

  // ----- writing over a file -----

  /** Writing from the start of a file without truncating it leaves what the new text does not reach. */
  function Overwrite(existing: string, text: string): string {
    text + if |text| < |existing| then existing[|text|..] else ""
  }

  /** The new text comes first, and what it does not reach is as it was, character by character. */
  lemma {:induction false} OverwrittenAt(existing: string, text: string, i: nat)
    requires i < |Overwrite(existing, text)|
    ensures |Overwrite(existing, text)| == if |text| < |existing| then |existing| else |text|
    ensures if i < |text| then Overwrite(existing, text)[i] == text[i]
            else i < |existing| && Overwrite(existing, text)[i] == existing[i]
  {
  }

  class CacheFile {
    var present: bool
    var content: string

    constructor Missing()
      ensures !present && content == ""
    {
      present, content := false, "";
    }

    function Text(): Option<string>
      reads this
    {
      if present then Some(content) else None
    }
  }

  /** A handle opened for reading and writing an existing file: writes go to the current position. */
  class FileHandle {
    const file: CacheFile
    var position: nat
    ghost const before: string // the file's text when the handle was opened
    ghost var written: string  // what was written through the handle since

    ghost predicate Valid()
      reads this, file
    {
      file.content == Overwrite(before, written) && position == |written|
    }

    constructor (file: CacheFile)
      ensures Valid() && this.file == file && before == file.content && written == ""
    {
      this.file := file;
      position := 0;
      before := file.content;
      written := "";
    }

    method WriteFile(output: string)
      requires Valid()
      modifies this, file`content
      ensures Valid() && written == old(written) + output
    {
      var end := position + |output|;
      file.content := file.content[..position] + output + if end < |file.content| then file.content[end..] else "";
      position := end;
      written := written + output;
    }
  }

  /**
    `writeToFile`: brackets around the encodings, joined and written a window at a time. Whatever
    the window, the text written is the printed list, over the file's old text.
   */
  method WriteToFile(handle: FileHandle, codec: Codec, merged: seq<Estimate>, window: nat)
    requires handle.Valid() && handle.written == "" && window > 0
    modifies handle, handle.file`content
    ensures handle.Valid() && handle.written == Print(codec, merged)
  {
    hide Join, FileHandle.Valid;
    ghost var lines := Encodings(codec, merged);
    handle.WriteFile(OPEN_BRACKET);
    var i := 0;
    WindowStart(lines);
    while i < |merged|
      invariant 0 <= i && handle.Valid()
      invariant handle.written == OPEN_BRACKET + WrittenBefore(lines, i)
    {
      var end := if i + window < |merged| then i + window else |merged|;
      WindowStep(lines, i, end);
      assert Encodings(codec, merged[i..end]) == lines[i..end];
      handle.WriteFile(Join(Encodings(codec, merged[i..end])));
      if i + window < |merged| {
        handle.WriteFile(COMMA_SEPARATOR);
      }
      i := i + window;
    }
    handle.WriteFile(CLOSE_BRACKET);
  }

  /** What the loop has written before line `i`: the lines so far, and a separator if more follow. */
  ghost function WrittenBefore(lines: seq<string>, i: nat): string {
    if i < |lines| then Join(lines[..i]) + (if i > 0 then COMMA_SEPARATOR else "") else Join(lines)
  }

  lemma {:induction false} WindowStart(lines: seq<string>)
    ensures WrittenBefore(lines, 0) == ""
  {
    if lines != [] { assert lines[..0] == []; }
  }

  lemma {:induction false} WindowStep(lines: seq<string>, i: nat, end: nat)
    requires i < end <= |lines|
    ensures WrittenBefore(lines, i) + Join(lines[i..end]) + (if end < |lines| then COMMA_SEPARATOR else "")
              == WrittenBefore(lines, end)
  {
    hide Join;
    assert lines[..end] == lines[..i] + lines[i..end];
    if i > 0 {
      JoinSplit(lines[..i], lines[i..end]);
    } else {
      WindowStart(lines);
      assert lines[i..end] == lines[..end];
    }
    if end == |lines| { assert lines[..end] == lines; }
  }

  // ----- reading -----

  /** The pieces of a text between newlines. */
  function Lines(text: string): (lines: seq<string>)
    ensures lines != []
  {
    if text == "" then [""]
    else
      var rest := Lines(text[1..]);
      if text[0] == '\n' then [""] + rest else [[text[0]] + rest[0]] + rest[1..]
  }

  /** A line of one character that is a bracket, a comma or a newline. */
  predicate IsDelimiter(line: string) {
    |line| == 1 && (line[0] == '[' || line[0] == ']' || line[0] == ',' || line[0] == '\n')
  }

  lemma {:induction false} DelimitersAre(line: string)
    ensures IsDelimiter(line) <==> line == "[" || line == "]" || line == "," || line == "\n"
  {
    if |line| == 1 { assert line == [line[0]]; }
  }

  function ParseLines(codec: Codec, lines: seq<string>): Option<seq<Estimate>> {
    if lines == [] then Some([])
    else
      var before := ParseLines(codec, lines[..|lines| - 1]);
      var line := lines[|lines| - 1];
      if before.None? || IsDelimiter(line) then before
      else match codec.decode(line)
           case None => None
           case Some(e) => Some(before.value + [e])
  }

  function Parse(codec: Codec, text: string): Option<seq<Estimate>> {
    ParseLines(codec, Lines(text))
  }

  /** `getCachedData`: every line that is no delimiter is decoded, and one failure rejects the file. */
  method GetCachedData(codec: Codec, text: string) returns (data: Option<seq<Estimate>>)
    ensures data == Parse(codec, text)
  {
    var lines := Lines(text);
    var arr: seq<Estimate> := [];
    for i := 0 to |lines|
      invariant ParseLines(codec, lines[..i]) == Some(arr)
    {
      assert lines[..i + 1][..i] == lines[..i];
      if !IsDelimiter(lines[i]) {
        var decoded := codec.decode(lines[i]);
        if decoded.None? {
          ParseFails(codec, lines, i + 1);
          return None;
        }
        arr := arr + [decoded.value];
      }
    }
    assert lines[..|lines|] == lines;
    return Some(arr);
  }

  lemma {:induction false} ParseFails(codec: Codec, lines: seq<string>, i: nat)
    requires i <= |lines| && ParseLines(codec, lines[..i]).None?
    ensures ParseLines(codec, lines).None?
    decreases |lines| - i
  {
    if i == |lines| {
      assert lines[..i] == lines;
    } else {
      assert lines[..i + 1][..i] == lines[..i];
      ParseFails(codec, lines, i + 1);
    }
  }

  lemma {:induction false} LinesAfterNewline(b: string)
    ensures Lines("\n" + b) == [""] + Lines(b)
  {
    var text := "\n" + b;
    assert text[0] == '\n' && text[1..] == b;
    assert Lines(text) == [""] + Lines(text[1..]);
  }

  lemma {:induction false} LinesSplit(a: string, b: string)
    requires '\n' !in a
    ensures Lines(a + "\n" + b) == [a] + Lines(b)
  {
    var text := a + "\n" + b;
    if a == "" {
      assert text == "\n" + b;
      LinesAfterNewline(b);
      assert [""] == [a];
    } else {
      assert text[1..] == a[1..] + "\n" + b;
      LinesSplit(a[1..], b);
      assert Lines(text) == [[a[0]] + a[1..]] + Lines(text[1..])[1..];
      assert Lines(text[1..])[1..] == Lines(b);
      assert [a[0]] + a[1..] == a;
    }
  }

  lemma {:induction false} ParseLinesConcat(codec: Codec, a: seq<string>, b: seq<string>)
    requires ParseLines(codec, a).Some? && ParseLines(codec, b).Some?
    ensures ParseLines(codec, a + b) == Some(ParseLines(codec, a).value + ParseLines(codec, b).value)
  {
    if b == [] {
      assert a + b == a;
      assert ParseLines(codec, a).value + [] == ParseLines(codec, a).value;
    } else {
      var n := |b| - 1;
      assert (a + b)[..|a + b| - 1] == a + b[..n];
      assert ParseLines(codec, b[..n]).Some?;
      ParseLinesConcat(codec, a, b[..n]);
      assert (a + b)[|a + b| - 1] == b[n];
      var parsed, rest := ParseLines(codec, a).value, ParseLines(codec, b[..n]).value;
      assert forall e: Estimate :: parsed + (rest + [e]) == (parsed + rest) + [e];
    }
  }

  lemma {:induction false} ParseOne(codec: Codec, line: string)
    requires IsDelimiter(line) || codec.decode(line).Some?
    ensures ParseLines(codec, [line]) == Some(if IsDelimiter(line) then [] else [codec.decode(line).value])
  {
    var lines := [line];
    assert lines[..|lines| - 1] == [];
    assert ParseLines(codec, lines[..|lines| - 1]) == Some([]);
    if !IsDelimiter(line) { assert [] + [codec.decode(line).value] == [codec.decode(line).value]; }
  }

  lemma {:induction false} ParseJoined(codec: Codec, s: seq<Estimate>)
    requires codec.Valid() && s != []
    ensures ParseLines(codec, Lines(Join(Encodings(codec, s)) + CLOSE_BRACKET)) == Some(s)
  {
    hide Lines, ParseLines;
    var lines := Encodings(codec, s);
    ParseOne(codec, lines[0]);
    assert lines[0] == codec.encode(s[0]);
    if |s| == 1 {
      LinesSplit(lines[0], "]");
      LinesOfOneLine("]");
      ParseOne(codec, "]");
      ParseLinesConcat(codec, [lines[0]], ["]"]);
      assert Join(lines) + CLOSE_BRACKET == lines[0] + "\n" + "]";
      assert [s[0]] + [] == s;
    } else {
      ParseJoined(codec, s[1..]);
      assert Encodings(codec, s[1..]) == lines[1..];
      var rest := Join(lines[1..]) + CLOSE_BRACKET;
      assert Join(lines) + CLOSE_BRACKET == lines[0] + "\n" + ("," + "\n" + rest);
      LinesSplit(lines[0], "," + "\n" + rest);
      LinesSplit(",", rest);
      ParseOne(codec, ",");
      ParseLinesConcat(codec, [","], Lines(rest));
      ParseLinesConcat(codec, [lines[0]], [","] + Lines(rest));
      assert [s[0]] + ([] + s[1..]) == s;
    }
  }

  lemma {:induction false} LinesOfOneLine(line: string)
    requires '\n' !in line
    ensures Lines(line) == [line]
  {
    if line != "" {
      LinesOfOneLine(line[1..]);
      assert Lines(line) == [[line[0]] + line[1..]] + [line[1..]][1..];
      assert [line[0]] + line[1..] == line;
    }
  }

  lemma {:induction false} LinesOfJoined(codec: Codec, s: seq<Estimate>)
    requires codec.Valid() && s != []
    ensures var lines := Lines(Join(Encodings(codec, s)) + CLOSE_BRACKET);
            |lines| == 2 * |s| && lines[2 * |s| - 1] == "]" &&
            (forall i :: 0 <= i < |s| ==> lines[2 * i] == codec.encode(s[i])) &&
            (forall i :: 0 <= i < |s| - 1 ==> lines[2 * i + 1] == ",")
  {
    hide Lines;
    var encodings := Encodings(codec, s);
    assert encodings[0] == codec.encode(s[0]);
    if |s| == 1 {
      LinesSplit(encodings[0], "]");
      LinesOfOneLine("]");
      assert Join(encodings) + CLOSE_BRACKET == encodings[0] + "\n" + "]";
    } else {
      LinesOfJoined(codec, s[1..]);
      assert Encodings(codec, s[1..]) == encodings[1..];
      var rest := Join(encodings[1..]) + CLOSE_BRACKET;
      assert Join(encodings) + CLOSE_BRACKET == encodings[0] + "\n" + ("," + "\n" + rest);
      LinesSplit(encodings[0], "," + "\n" + rest);
      LinesSplit(",", rest);
      var lines := Lines(Join(encodings) + CLOSE_BRACKET);
      assert lines == [codec.encode(s[0]), ","] + Lines(rest);
      forall i | 0 < i < |s| ensures lines[2 * i] == codec.encode(s[i]) {
        assert lines[2 * i] == Lines(rest)[2 * (i - 1)] && s[1..][i - 1] == s[i];
      }
      forall i | 0 <= i < |s| - 1 ensures lines[2 * i + 1] == "," {
        if i > 0 { assert lines[2 * i + 1] == Lines(rest)[2 * (i - 1) + 1]; }
      }
    }
  }

  /** The printed file, line by line: a bracket, the encodings with a comma between each two, and a bracket. */
  lemma {:induction false} PrintedLines(codec: Codec, s: seq<Estimate>)
    requires codec.Valid() && s != []
    ensures var lines := Lines(Print(codec, s));
            |lines| == 2 * |s| + 1 && lines[0] == "[" && lines[2 * |s|] == "]" &&
            (forall i :: 0 <= i < |s| ==> lines[2 * i + 1] == codec.encode(s[i])) &&
            (forall i :: 0 <= i < |s| - 1 ==> lines[2 * i + 2] == ",")
  {
    hide Lines;
    var rest := Join(Encodings(codec, s)) + CLOSE_BRACKET;
    assert Print(codec, s) == "[" + "\n" + rest;
    LinesSplit("[", rest);
    LinesOfJoined(codec, s);
    var lines := Lines(Print(codec, s));
    forall i | 0 <= i < |s|
      ensures lines[2 * i + 1] == codec.encode(s[i])
    {
      assert lines[2 * i + 1] == Lines(rest)[2 * i];
    }
    forall i | 0 <= i < |s| - 1 ensures lines[2 * i + 2] == "," { assert lines[2 * i + 2] == Lines(rest)[2 * i + 1]; }
  }

  /** Reading back what was printed gives the same list. */
  lemma {:induction false} ParsePrint(codec: Codec, s: seq<Estimate>)
    requires codec.Valid() && s != []
    ensures Parse(codec, Print(codec, s)) == Some(s)
  {
    var rest := Join(Encodings(codec, s)) + CLOSE_BRACKET;
    assert Print(codec, s) == "[" + "\n" + rest;
    LinesSplit("[", rest);
    ParseJoined(codec, s);
    ParseOne(codec, "[");
    ParseLinesConcat(codec, ["["], Lines(rest));
    assert [] + s == s;
  }

  /** A fresh file holds two brackets on one line, which reads as one value that is no estimate. */
  lemma {:induction false} ParseFresh(codec: Codec)
    requires codec.Valid()
    ensures Parse(codec, "[]") == Some([EmptyArray])
  {
    LinesOfOneLine("[]");
    assert codec.decode(codec.encode(EmptyArray)) == Some(EmptyArray);
    ParseOne(codec, "[]");
  }

  // ----- lengths -----

  function Size(codec: Codec, s: seq<Estimate>): nat {
    if s == [] then 0 else |codec.encode(s[0])| + 3 + Size(codec, s[1..])
  }

  lemma {:induction false} JoinLength(codec: Codec, s: seq<Estimate>)
    requires s != []
    ensures |Join(Encodings(codec, s))| + 3 == Size(codec, s)
  {
    var lines := Encodings(codec, s);
    if |s| > 1 {
      JoinLength(codec, s[1..]);
      assert Encodings(codec, s[1..]) == lines[1..];
    } else {
      assert s[1..] == [];
    }
  }

  lemma {:induction false} PrintLength(codec: Codec, s: seq<Estimate>)
    ensures |Print(codec, s)| == if s == [] then 4 else Size(codec, s) + 1
  {
    if s != [] { JoinLength(codec, s); }
  }

  /** No stored value is replaced by a shorter one at the same time. */
  ghost predicate NoShorterTies(codec: Codec, key: Estimate -> int, one: seq<Estimate>, two: seq<Estimate>) {
    forall e, f :: e in one && f in two && key(e) == key(f) ==> |codec.encode(f)| <= |codec.encode(e)|
  }

  lemma {:induction false} MergeSize(codec: Codec, key: Estimate -> int, one: seq<Estimate>, two: seq<Estimate>)
    requires NoShorterTies(codec, key, one, two)
    ensures Size(codec, two) <= Size(codec, Merge(key, one, two))
  {
    if one != [] && two != [] {
      if key(one[0]) < key(two[0]) {
        MergeSize(codec, key, one[1..], two);
        assert ([one[0]] + Merge(key, one[1..], two))[1..] == Merge(key, one[1..], two);
      } else if key(two[0]) < key(one[0]) {
        MergeSize(codec, key, one, two[1..]);
        assert ([two[0]] + Merge(key, one, two[1..]))[1..] == Merge(key, one, two[1..]);
      } else {
        MergeSize(codec, key, one[1..], two[1..]);
        assert ([one[0]] + Merge(key, one[1..], two[1..]))[1..] == Merge(key, one[1..], two[1..]);
      }
    }
  }

  /** The members of a list whose times occur in another: merging replaces them. */
  function Replaced(key: Estimate -> int, one: seq<Estimate>, two: seq<Estimate>): seq<Estimate> {
    if two == [] then []
    else (if HasKey(key, one, key(two[0])) then [two[0]] else []) + Replaced(key, one, two[1..])
  }

  lemma {:induction false} ReplacedByTail(key: Estimate -> int, one: seq<Estimate>, two: seq<Estimate>)
    requires one != [] && StrictlySorted(key, two) && (two == [] || key(one[0]) < key(two[0]))
    ensures Replaced(key, one, two) == Replaced(key, one[1..], two)
  {
    if two != [] {
      TailKey(key, one, key(two[0]));
      ReplacedByTail(key, one, two[1..]);
    }
  }

  lemma {:induction false} SizeCons(codec: Codec, e: Estimate, s: seq<Estimate>)
    ensures Size(codec, [e] + s) == |codec.encode(e)| + 3 + Size(codec, s)
  {
    assert ([e] + s)[1..] == s;
  }

  /** The size of a merge: what is new comes in, what is replaced goes. */
  lemma {:induction false} MergeSizeExact(codec: Codec, key: Estimate -> int, one: seq<Estimate>, two: seq<Estimate>)
    requires StrictlySorted(key, one) && StrictlySorted(key, two)
    ensures Size(codec, Merge(key, one, two)) + Size(codec, Replaced(key, one, two))
              == Size(codec, one) + Size(codec, two)
  {
    if one == [] {
      NothingReplaced(key, two);
    } else if two != [] {
      if key(one[0]) < key(two[0]) {
        MergeSizeExact(codec, key, one[1..], two);
        ReplacedByTail(key, one, two);
        SizeCons(codec, one[0], Merge(key, one[1..], two));
      } else if key(two[0]) < key(one[0]) {
        MergeSizeExact(codec, key, one, two[1..]);
        KeyAbove(key, one, key(two[0]));
        assert Replaced(key, one, two) == Replaced(key, one, two[1..]);
        SizeCons(codec, two[0], Merge(key, one, two[1..]));
      } else {
        MergeSizeExact(codec, key, one[1..], two[1..]);
        ReplacedByTail(key, one, two[1..]);
        TailKey(key, one, key(two[0]));
        assert HasKey(key, one, key(two[0]));
        assert Replaced(key, one, two) == [two[0]] + Replaced(key, one, two[1..]);
        SizeCons(codec, two[0], Replaced(key, one, two[1..]));
        SizeCons(codec, one[0], Merge(key, one[1..], two[1..]));
      }
    }
  }

  lemma {:induction false} NothingReplaced(key: Estimate -> int, two: seq<Estimate>)
    ensures Replaced(key, [], two) == []
  {
    if two != [] { NothingReplaced(key, two[1..]); }
  }

  lemma {:induction false} ReplacedFits(codec: Codec, key: Estimate -> int, one: seq<Estimate>, two: seq<Estimate>)
    requires StrictlySorted(key, one) && StrictlySorted(key, two) && NoShorterTies(codec, key, one, two)
    ensures Size(codec, Replaced(key, one, two)) <= Size(codec, one)
  {
    MergeSize(codec, key, one, two);
    MergeSizeExact(codec, key, one, two);
  }

  /**
    Writing the merge over the file it was merged with leaves no stale tail exactly when the entries
    it replaces are together no longer than the new ones; then the file reads back as the merge.
   */
  lemma {:induction false} OverwriteIsSafe(codec: Codec, key: Estimate -> int, one: seq<Estimate>, two: seq<Estimate>)
    requires codec.Valid() && (one != [] || two != []) && StrictlySorted(key, one) && StrictlySorted(key, two)
    ensures var merged := Merge(key, one, two);
            var text := Overwrite(Print(codec, two), Print(codec, merged));
            (text == Print(codec, merged) <==> Size(codec, Replaced(key, one, two)) <= Size(codec, one)) &&
            (Size(codec, Replaced(key, one, two)) <= Size(codec, one) ==> Parse(codec, text) == Some(merged))
  {
    hide Print, Parse, Replaced, Merge;
    var merged := Merge(key, one, two);
    MergeSizeExact(codec, key, one, two);
    PrintLength(codec, two);
    PrintLength(codec, merged);
    MergeNotEmpty(key, one, two);
    if two == [] { NothingToReplace(key, one); }
    ParsePrint(codec, merged);
  }

  lemma {:induction false} NothingToReplace(key: Estimate -> int, one: seq<Estimate>)
    ensures Replaced(key, one, []) == []
  {
  }

  lemma {:induction false} MergeNotEmpty(key: Estimate -> int, one: seq<Estimate>, two: seq<Estimate>)
    requires one != [] || two != []
    ensures Merge(key, one, two) != []
  {
  }
}
