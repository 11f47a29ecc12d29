/** The lines of a text. */
module LineText {
  import opened Search
  import opened Wrappers

  predicate EndsWithReturn(line: string) {
    line != "" && line[|line| - 1] == '\r'
  }

  function WithoutReturn(line: string): string {
    if EndsWithReturn(line) then line[..|line| - 1] else line
  }

  /** The lines of a text; a line end is a line feed with an optional carriage return before it. */
  function Lines(text: string): (lines: seq<string>)
    ensures forall line :: line in lines ==> '\n' !in line
  {
    if text == "" then []
    else
      var at := Find(text, "\n");
      if at.None? then
        assert forall i :: 0 <= i < |text| ==> text[i] != '\n' by {
          forall i | 0 <= i < |text| ensures text[i] != '\n' { assert !OccursAt(text, "\n", i); }
        }
        [text]
      else
        assert forall i :: 0 <= i < at.value ==> text[i] != '\n' by {
          forall i | 0 <= i < at.value ensures text[i] != '\n' { assert !OccursAt(text, "\n", i); }
        }
        [WithoutReturn(text[..at.value])] + Lines(text[at.value + 1..])
  }

  lemma FirstLine(line: string, rest: string)
    requires '\n' !in line
    ensures Lines(line + "\n" + rest) == [WithoutReturn(line)] + Lines(rest)
  {
    var text := line + "\n" + rest;
    forall i | i < |line| ensures !OccursAt(text, "\n", i) {
      if 0 <= i { assert text[i..i + 1][0] == line[i]; }
    }
    FindIsFirst(text, "\n", |line|);
    assert text[..|line|] == line && text[|line| + 1..] == rest;
  }
}
