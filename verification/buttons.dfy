/**
 * `parse_buttons` of new_bot/plugins/test.py: a button text such as
 * "{Site}(https://a.b) {Chat}(https://c.d)\n{Help}(https://e.f)" becomes a
 * keyboard with one row per line and one (text, url) button per
 * `{text}(url)` match of the pattern `\{([^}]+)\}\(([^)]+)\)`.
 *
 * `ParseButtonsAsWritten` is the function as the file has it: the module
 * never imports `re`, `InlineKeyboardButton` or `InlineKeyboardMarkup`, so
 * the first line that holds both braces raises NameError, which the
 * function's own `except` swallows. `ParseButtons` is the parser the body
 * spells out, with its round trip proved.
 */
module Buttons {
  import opened Common

  datatype Button = Button(text: string, url: string)

  /** Rows of buttons, top to bottom (the InlineKeyboardMarkup). */
  type Markup = seq<seq<Button>>

  // ---------------------------------------------------------------------
  // The pattern \{([^}]+)\}\(([^)]+)\) and re.findall
  // ---------------------------------------------------------------------

  /** The first index at or after `from` that holds `c`. */
  function FirstIndex(s: string, c: char, from: nat): (r: Option<nat>)
    requires from <= |s|
    ensures r.Some? ==> from <= r.value < |s| && s[r.value] == c
                        && forall k :: from <= k < r.value ==> s[k] != c
    ensures r.None? ==> forall k :: from <= k < |s| ==> s[k] != c
    decreases |s| - from
  {
    if from == |s| then None
    else if s[from] == c then Some(from)
    else FirstIndex(s, c, from + 1)
  }

  /**
   * A match of the pattern at the very start of `s`: the text up to the
   * first '}', which must be non-empty and followed by '(', then the url up
   * to the next ')', also non-empty. The third component is the match length.
   * Because `[^}]+` cannot cross a '}' and `[^)]+` cannot cross a ')', the
   * regular expression has no other way to match here.
   */
  function MatchPrefix(s: string): (r: Option<(Button, nat)>)
    ensures r.Some? ==> 4 <= r.value.1 <= |s|
  {
    if |s| == 0 || s[0] != '{' then None
    else
      match FirstIndex(s, '}', 1)
      case None => None
      case Some(j) =>
        if j < 2 || j + 1 >= |s| || s[j + 1] != '(' then None
        else
          match FirstIndex(s, ')', j + 2)
          case None => None
          case Some(k) =>
            if k < j + 3 then None
            else Some((Button(s[1..j], s[j + 2..k]), k + 1))
  }

  /** `re.findall` of the pattern: leftmost matches, scanning on after each one. */
  function FindAll(s: string): seq<Button>
    decreases |s|
  {
    if |s| == 0 then []
    else
      match MatchPrefix(s)
      case Some((b, n)) => [b] + FindAll(s[n..])
      case None => FindAll(s[1..])
  }

  /** A button the pattern can read back: non-empty text without '}', non-empty url without ')'. */
  predicate Readable(b: Button)
  {
    |b.text| >= 1 && '}' !in b.text && |b.url| >= 1 && ')' !in b.url
  }

  /** The text `{text}(url)` of one button. */
  function RenderButton(b: Button): string
  {
    "{" + b.text + "}(" + b.url + ")"
  }

  function RenderRow(row: seq<Button>): string
  {
    if |row| == 0 then "" else RenderButton(row[0]) + RenderRow(row[1..])
  }

  lemma MatchRendered(b: Button, rest: string)
    requires Readable(b)
    ensures MatchPrefix(RenderButton(b) + rest) == Some((b, |RenderButton(b)|))
  {
    var s := RenderButton(b) + rest;
    var j := |b.text| + 1;
    var k := j + 2 + |b.url|;
    assert s[0] == '{';
    assert s[1..j] == b.text;
    assert s[j] == '}' && s[j + 1] == '(';
    assert forall x :: 1 <= x < j ==> s[x] == b.text[x - 1];
    assert FirstIndex(s, '}', 1) == Some(j);
    assert s[j + 2..k] == b.url;
    assert s[k] == ')';
    assert forall x :: j + 2 <= x < k ==> s[x] == b.url[x - j - 2];
    assert FirstIndex(s, ')', j + 2) == Some(k);
  }

  /** findall reads a rendered row back button for button. */
  lemma {:induction false} FindAllRenderRow(row: seq<Button>)
    requires forall i :: 0 <= i < |row| ==> Readable(row[i])
    ensures FindAll(RenderRow(row)) == row
    decreases |row|
  {
    if |row| > 0 {
      var head := RenderButton(row[0]);
      var tail := RenderRow(row[1..]);
      MatchRendered(row[0], tail);
      assert (head + tail)[|head|..] == tail;
      FindAllRenderRow(row[1..]);
      assert [row[0]] + row[1..] == row;
    }
  }

  // ---------------------------------------------------------------------
  // The parser the body spells out
  // ---------------------------------------------------------------------

  predicate HasBraces(s: string) { '{' in s && '}' in s }

  /** The loop over lines: a line with both braces gives its matches as a row, unless there are none. */
  function Rows(lines: seq<string>): (rows: Markup)
    ensures forall i :: 0 <= i < |rows| ==> |rows[i]| >= 1
  {
    if |lines| == 0 then []
    else
      var found := if HasBraces(lines[0]) then FindAll(lines[0]) else [];
      (if |found| > 0 then [found] else []) + Rows(lines[1..])
  }

  /** `parse_buttons(text, markup)` as its body intends it. */
  function ParseButtons(text: string, markup: bool): (r: Option<Markup>)
    ensures r.Some? ==> |r.value| >= 1 && markup && HasBraces(text)
  {
    if |text| == 0 || !markup then None
    else if HasBraces(text) then
      var rows := Rows(Split(text, '\n'));
      if |rows| > 0 then Some(rows) else None
    else None
  }

  /** The text of a keyboard: one rendered row per line. */
  function RenderMarkup(rows: Markup): string
    requires |rows| >= 1
  {
    Join(RenderLines(rows), '\n')
  }

  function RenderLines(rows: Markup): (lines: seq<string>)
    ensures |lines| == |rows|
    ensures forall i :: 0 <= i < |rows| ==> lines[i] == RenderRow(rows[i])
  {
    if |rows| == 0 then [] else [RenderRow(rows[0])] + RenderLines(rows[1..])
  }

  predicate OneLine(b: Button) { '\n' !in b.text && '\n' !in b.url }

  lemma {:induction false} RenderRowFacts(row: seq<Button>)
    requires forall i :: 0 <= i < |row| ==> OneLine(row[i])
    ensures '\n' !in RenderRow(row)
    ensures |row| >= 1 ==> HasBraces(RenderRow(row))
    decreases |row|
  {
    if |row| > 0 {
      RenderRowFacts(row[1..]);
      var h := RenderButton(row[0]);
      assert h[0] == '{' && h[|row[0].text| + 1] == '}';
      assert RenderRow(row) == h + RenderRow(row[1..]);
      assert RenderRow(row)[0] == '{' && RenderRow(row)[|row[0].text| + 1] == '}';
    }
  }

  lemma {:induction false} RowsOfRendered(rows: Markup)
    requires forall i :: 0 <= i < |rows| ==> |rows[i]| >= 1
    requires forall i, j :: 0 <= i < |rows| && 0 <= j < |rows[i]| ==> Readable(rows[i][j]) && OneLine(rows[i][j])
    ensures Rows(RenderLines(rows)) == rows
    decreases |rows|
  {
    if |rows| > 0 {
      var lines := RenderLines(rows);
      RenderRowFacts(rows[0]);
      FindAllRenderRow(rows[0]);
      assert HasBraces(lines[0]) && FindAll(lines[0]) == rows[0];
      assert Rows(lines) == [rows[0]] + Rows(lines[1..]);
      assert lines[1..] == RenderLines(rows[1..]);
      RowsOfRendered(rows[1..]);
      assert [rows[0]] + rows[1..] == rows;
    }
  }

  /**
   * Round trip of the intended parser: a keyboard of readable one-line
   * buttons, written out as `{text}(url)` lines, parses back to itself.
   */
  lemma ParseButtonsRoundTrip(rows: Markup)
    requires |rows| >= 1
    requires forall i :: 0 <= i < |rows| ==> |rows[i]| >= 1
    requires forall i, j :: 0 <= i < |rows| && 0 <= j < |rows[i]| ==> Readable(rows[i][j]) && OneLine(rows[i][j])
    ensures ParseButtons(RenderMarkup(rows), true) == Some(rows)
  {
    var lines := RenderLines(rows);
    forall i | 0 <= i < |lines| ensures '\n' !in lines[i] {
      RenderRowFacts(rows[i]);
    }
    SplitJoin(lines, '\n');
    RowsOfRendered(rows);
    var text := RenderMarkup(rows);
    RenderRowFacts(rows[0]);
    JoinKeepsFirst(lines, '\n');
    assert HasBraces(lines[0]);
    assert HasBraces(text);
  }

  lemma JoinKeepsFirst(parts: seq<string>, sep: char)
    requires |parts| >= 1
    ensures forall c :: c in parts[0] ==> c in Join(parts, sep)
  {
    if |parts| > 1 {
      assert Join(parts, sep) == parts[0] + ([sep] + Join(parts[1..], sep));
    }
  }

  /** Without both braces in the text, or with an empty text or markup off, there is no keyboard. */
  lemma ParseButtonsNoneCases(text: string, markup: bool)
    requires |text| == 0 || !markup || !HasBraces(text)
    ensures ParseButtons(text, markup) == None
  {
  }

  // ---------------------------------------------------------------------
  // As written: the brace branch raises NameError
  // ---------------------------------------------------------------------

  datatype Outcome = Returned(markup: Option<Markup>) | RaisedNameError

  /**
   * The loop over lines as the file runs it: the first line holding both
   * braces evaluates `re.findall` with `re` unbound; with no such line the
   * row list stays empty and the conditional returns None.
   */
  function BraceBranchAsWritten(lines: seq<string>): Outcome
  {
    if |lines| == 0 then Returned(None)
    else if HasBraces(lines[0]) then RaisedNameError
    else BraceBranchAsWritten(lines[1..])
  }

  function ParseButtonsAsWritten(text: string, markup: bool): (r: Option<Markup>)
    ensures r.Some? ==> |text| > 0 && markup && HasBraces(text)
  {
    if |text| == 0 || !markup then None
    else if HasBraces(text) then
      match BraceBranchAsWritten(Split(text, '\n'))
      case RaisedNameError => None
      case Returned(m) => m
    else None
  }

  lemma {:induction false} BraceBranchNeverBuilds(lines: seq<string>)
    ensures BraceBranchAsWritten(lines) != Returned(None) ==> BraceBranchAsWritten(lines) == RaisedNameError
    ensures BraceBranchAsWritten(lines).Returned? ==> BraceBranchAsWritten(lines).markup == None
    decreases |lines|
  {
    if |lines| > 0 && !HasBraces(lines[0]) {
      BraceBranchNeverBuilds(lines[1..]);
    }
  }

  /** As written, every input gives None. */
  lemma ParseButtonsAsWrittenIsNone(text: string, markup: bool)
    ensures ParseButtonsAsWritten(text, markup) == None
  {
    BraceBranchNeverBuilds(Split(text, '\n'));
  }

  /**
   * Every keyboard the intended parser reads back (for instance the text
   * "{Site}(https://a.b)") is dropped by the file's version.
   */
  lemma ParseButtonsDiscrepancy(rows: Markup)
    requires |rows| >= 1
    requires forall i :: 0 <= i < |rows| ==> |rows[i]| >= 1
    requires forall i, j :: 0 <= i < |rows| && 0 <= j < |rows[i]| ==> Readable(rows[i][j]) && OneLine(rows[i][j])
    ensures ParseButtons(RenderMarkup(rows), true) == Some(rows)
    ensures ParseButtonsAsWritten(RenderMarkup(rows), true) == None
  {
    ParseButtonsRoundTrip(rows);
    ParseButtonsAsWrittenIsNone(RenderMarkup(rows), true);
  }
}
