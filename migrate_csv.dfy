/** The data migration of migrate_csv.py: every record line of the points file has its
    numeric difficulty (third field) replaced by a difficulty label, and is written out
    with its fields joined by single spaces.

    Reading and writing the two files is outside the model: the input lines arrive as
    a sequence and the output lines are returned. `int()` is a parameter `parseInt`
    that answers None where Python raises. */
module MigrateCsv {
  import opened Options
  import opened Text
  import opened StarObservation

  /** `get_difficulty_text` on a parsed score: up to 30 easy, up to 60 medium, else hard. */
  function DifficultyText(score: int): (text: string)
    ensures text == EASY <==> score <= 30
    ensures text == MEDIUM <==> 30 < score <= 60
    ensures text == HARD <==> score > 60
  {
    if score <= 30 then EASY
    else if score <= 60 then MEDIUM
    else HARD
  }

  /** A harder score never gets a label with a lower access cost in the selector. */
  lemma DifficultyTextMonotone(s1: int, s2: int)
    requires s1 <= s2
    ensures DifficultyCost(DifficultyText(s1)) <= DifficultyCost(DifficultyText(s2))
  {
  }

  /** Each label is a single whitespace-free field. */
  lemma LabelsAreWords(score: int)
    ensures IsWord(DifficultyText(score))
  {
    var text := DifficultyText(score);
    assert |text| == 2;
    assert !IsSpace(text[0]) && !IsSpace(text[1]);
  }

  /** What the migration does with one input line. */
  datatype LineOutcome = Dropped | Failed | Rewritten(text: string)

  /** Blank lines and lines with fewer than six fields are dropped; otherwise the third
      field is parsed as an integer (Failed when that raises) and replaced by its label. */
  function MigrateLine(line: string, parseInt: string -> Option<int>): LineOutcome
  {
    if IsBlank(line) then Dropped
    else
      var parts := Split(line);
      if |parts| >= 6 then
        match parseInt(parts[2])
        case None => Failed
        case Some(score) => Rewritten(Join(parts[2 := DifficultyText(score)]))
      else Dropped
  }

  /** The rewritten line splits into the input's fields with only the third replaced:
      the coordinates, the view window and the whole name come through unchanged. */
  lemma {:induction false} MigrateLineFields(line: string, parseInt: string -> Option<int>)
    ensures MigrateLine(line, parseInt).Dropped? <==> |Split(line)| < 6
    ensures MigrateLine(line, parseInt).Failed? <==> |Split(line)| >= 6 && parseInt(Split(line)[2]).None?
    ensures MigrateLine(line, parseInt).Rewritten? ==>
      var parts := Split(line);
      Split(MigrateLine(line, parseInt).text) == parts[2 := DifficultyText(parseInt(parts[2]).value)]
  {
    if IsBlank(line) {
      SplitBlank(line);
    } else {
      var parts := Split(line);
      if |parts| >= 6 && parseInt(parts[2]).Some? {
        SplitWords(line);
        LabelsAreWords(parseInt(parts[2]).value);
        SplitJoin(parts[2 := DifficultyText(parseInt(parts[2]).value)]);
      }
    }
  }

  /** A migrated line loads as the same point with the label as its difficulty: same
      coordinates, same view window, same name, and it is malformed exactly when the
      original line's number fields are. */
  lemma MigratedRecordLoads(line: string, parseInt: string -> Option<int>, parseReal: string -> Option<real>)
    requires MigrateLine(line, parseInt).Rewritten?
    ensures var out := MigrateLine(line, parseInt).text;
      var newDifficulty := DifficultyText(parseInt(Split(line)[2]).value);
      && ParseRecord(out, parseReal).Malformed? == ParseRecord(line, parseReal).Malformed?
      && (ParseRecord(out, parseReal).Parsed? ==>
            ParseRecord(out, parseReal).point == ParseRecord(line, parseReal).point.(difficulty := newDifficulty))
  {
    MigrateLineFields(line, parseInt);
    var out := MigrateLine(line, parseInt).text;
    ParseRecordFields(out, parseReal);
    ParseRecordFields(line, parseReal);
    assert Split(out)[5..] == Split(line)[5..];
  }

  /** The output lines for `lines`, and whether the run completed; a score `int()`
      rejects stops the run after the lines already written. */
  function Migrate(lines: seq<string>, parseInt: string -> Option<int>): (seq<string>, bool)
  {
    if lines == [] then ([], true)
    else match MigrateLine(lines[0], parseInt)
      case Dropped => Migrate(lines[1..], parseInt)
      case Failed => ([], false)
      case Rewritten(text) =>
        var rest := Migrate(lines[1..], parseInt);
        ([text] + rest.0, rest.1)
  }

  /** The number of record lines: lines with at least six fields. */
  function RecordCount(lines: seq<string>): nat
  {
    if lines == [] then 0
    else (if |Split(lines[0])| >= 6 then 1 else 0) + RecordCount(lines[1..])
  }

  /** A completed run writes one line per record line and drops the rest. */
  lemma {:induction false} MigrateCount(lines: seq<string>, parseInt: string -> Option<int>)
    requires Migrate(lines, parseInt).1
    ensures |Migrate(lines, parseInt).0| == RecordCount(lines)
  {
    if lines != [] {
      MigrateLineFields(lines[0], parseInt);
      MigrateCount(lines[1..], parseInt);
    }
  }

  /** The migration loop: each record line is rewritten and written in order; the run
      stops at the first difficulty that is not an integer. */
  method MigrateLines(lines: seq<string>, parseInt: string -> Option<int>) returns (output: seq<string>, ok: bool)
    ensures (output, ok) == Migrate(lines, parseInt)
    ensures ok ==> |output| == RecordCount(lines)
  {
    output := [];
    var i := 0;
    while i < |lines|
      invariant 0 <= i <= |lines|
      invariant Migrate(lines, parseInt).0 == output + Migrate(lines[i..], parseInt).0
      invariant Migrate(lines, parseInt).1 == Migrate(lines[i..], parseInt).1
    {
      assert lines[i..][0] == lines[i];
      assert lines[i..][1..] == lines[i + 1..];
      var line := lines[i];
      if !IsBlank(line) {
        var parts := Split(line);
        if |parts| >= 6 {
          var score := parseInt(parts[2]);
          if score.None? {
            assert output + [] == output;
            ok := false;
            return;
          }
          var diffText := DifficultyText(score.value);
          parts := parts[2 := diffText];
          assert (output + [Join(parts)]) + Migrate(lines[i + 1..], parseInt).0
              == output + ([Join(parts)] + Migrate(lines[i + 1..], parseInt).0);
          output := output + [Join(parts)];
        }
      }
      i := i + 1;
    }
    assert lines[i..] == [];
    assert output + [] == output;
    ok := true;
    MigrateCount(lines, parseInt);
  }
}
