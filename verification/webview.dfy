/**
  The script of the tutorial's web view (script/extensionscript.js): the
  exercise table with its row selection, the completed/reopened state of a
  row and the count of completed rows, the lookup of a row by the exercise
  name printed in its first cell, and the listener for messages sent by the
  extension, which ignores messages from untrusted origins.

  The page is reduced to what the script reads and writes: one `Row` per
  table row (its first-cell text and the CSS classes the script toggles),
  the text of the completed-exercises counter and the HTML of the
  description area.
*/
module Webview {
  import opened Wrappers
  import opened Text

  /**
    A table row: the text of its first cell, whether it has the classes
    `selected` and `completed`, and whether its Complete and Reopen buttons
    have the class `hidden`.
  */
  datatype Row = Row(cell: string, selected: bool, completed: bool, completeHidden: bool, reopenHidden: bool)

  /** A completed row offers Reopen only; an open row offers Complete only. */
  predicate ButtonsAgree(r: Row) {
    r.completeHidden == r.completed && r.reopenHidden == !r.completed
  }

  /**
    `getExerciseNameFromRow`: the second ':'-separated piece of the first
    cell, trimmed. A cell without ':' has no second piece, and calling
    `trim` on it throws (None).
  */
  function ExerciseNameFromRow(cell: string): (r: Option<string>)
    ensures r.None? <==> ':' !in cell
    ensures r.Some? ==> IsTrimmed(r.value)
  {
    var parts := Split(cell, ':');
    if |parts| > 1 then Some(Trim(parts[1])) else None
  }

  /** The first cell the exercise table gives exercise number `k`: "k: name". */
  function Label(k: nat, name: string): (r: string)
    ensures StartsWith(r, NatToString(k))
  {
    NatToString(k) + ": " + name
  }

  /** The digits of a number hold no ':'. */
  lemma NoColonInNumber(k: nat)
    ensures ':' !in NatToString(k)
  {
    var d := NatToString(k);
    assert forall i :: 0 <= i < |d| ==> d[i] != ':';
  }

  /** Two separator-free pieces joined by the separator split back into those two pieces. */
  lemma SplitTwo(a: string, b: string, sep: char)
    requires sep !in a && sep !in b
    ensures Split(a + [sep] + b, sep) == [a, b]
  {
    SplitCons(a, b, sep);
    assert IndexOf(b, sep) == -1;
  }

  /** A cell "prefix: name" reads back `name` when neither holds a ':' and the name is trimmed. */
  lemma ReadBack(prefix: string, name: string)
    requires ':' !in prefix && ':' !in name && IsTrimmed(name)
    ensures ExerciseNameFromRow(prefix + ": " + name) == Some(name)
  {
    var rest := " " + name;
    assert prefix + ": " + name == prefix + [':'] + rest;
    SplitTwo(prefix, rest, ':');
    TrimLeadingBlank(name);
  }

  /**
    The name is read back from a row cell when it is trimmed and holds no
    ':' — the only names the lookup by name can find.
  */
  lemma LabelRoundTrip(k: nat, name: string)
    requires ':' !in name && IsTrimmed(name)
    ensures ExerciseNameFromRow(Label(k, name)) == Some(name)
  {
    NoColonInNumber(k);
    ReadBack(NatToString(k), name);
  }

  /** The piece of a label before its first ':' is the row number: its digits denote `k`. */
  lemma LabelNumber(k: nat, name: string)
    ensures var first := Split(Label(k, name), ':')[0];
            (forall c :: 0 <= c < |first| ==> '0' <= first[c] <= '9') && DecimalValue(first) == k
  {
    NoColonInNumber(k);
    var d := NatToString(k);
    assert Label(k, name) == d + [':'] + (" " + name);
    SplitCons(d, " " + name, ':');
    NatToStringValue(k);
  }

  /** A name with a ':' is cut at it: only the piece before its first ':' is read back. */
  lemma ColonInNameIsCut(prefix: string, before: string, after: string)
    requires ':' !in prefix && ':' !in before && IsTrimmed(before)
    ensures ExerciseNameFromRow(prefix + ": " + (before + ":" + after)) == Some(before)
  {
    var piece := " " + before;
    var rest := piece + [':'] + after;
    assert prefix + ": " + (before + ":" + after) == prefix + [':'] + rest;
    SplitCons(prefix, rest, ':');
    SplitCons(piece, after, ':');
    TrimLeadingBlank(before);
  }

  /** The number of rows with the class `completed`. */
  function CountCompleted(rows: seq<Row>): (n: nat)
    ensures n <= |rows|
  {
    if rows == [] then 0
    else CountCompleted(rows[..|rows| - 1]) + (if rows[|rows| - 1].completed then 1 else 0)
  }

  /** Changing one row changes the count by the change of that row's `completed` class only. */
  lemma {:induction false} CountCompletedUpdate(rows: seq<Row>, i: nat, r: Row)
    requires i < |rows|
    ensures CountCompleted(rows[i := r]) + (if rows[i].completed then 1 else 0)
            == CountCompleted(rows) + (if r.completed then 1 else 0)
    decreases |rows|
  {
    var n := |rows| - 1;
    var updated := rows[i := r];
    if i < n {
      assert updated[..n] == rows[..n][i := r];
      CountCompletedUpdate(rows[..n], i, r);
    } else {
      assert updated[..n] == rows[..n];
    }
  }

  /** Rows with the same `completed` classes have the same count. */
  lemma {:induction false} CountCompletedOnlyReadsCompleted(a: seq<Row>, b: seq<Row>)
    requires |a| == |b|
    requires forall j :: 0 <= j < |a| ==> a[j].completed == b[j].completed
    ensures CountCompleted(a) == CountCompleted(b)
    decreases |a|
  {
    if a != [] {
      CountCompletedOnlyReadsCompleted(a[..|a| - 1], b[..|b| - 1]);
    }
  }

  /** The first row at or after `k` with the class `selected`. */
  function FirstSelected(rows: seq<Row>, k: nat): (r: Option<nat>)
    ensures r.Some? ==> k <= r.value < |rows| && rows[r.value].selected
    ensures r.Some? ==> forall j :: k <= j < r.value ==> !rows[j].selected
    ensures r.None? <==> forall j :: k <= j < |rows| ==> !rows[j].selected
    decreases |rows| - k
  {
    if k >= |rows| then None
    else if rows[k].selected then Some(k)
    else FirstSelected(rows, k + 1)
  }

  /** What looking a row up by exercise name gives: its position, no row, or the exception of a row without ':'. */
  datatype RowLookup = Found(index: nat) | NotFound | Throws

  /** `getExerciseRow` from row `k` on: the first row whose name is `name`. */
  function FindRow(rows: seq<Row>, name: string, k: nat): (r: RowLookup)
    ensures r.Found? ==> k <= r.index < |rows| && ExerciseNameFromRow(rows[r.index].cell) == Some(name)
    ensures r.Found? || r.NotFound? ==>
              forall j :: k <= j < |rows| && (r.NotFound? || j < r.index) ==>
                ExerciseNameFromRow(rows[j].cell).Some? && ExerciseNameFromRow(rows[j].cell) != Some(name)
    ensures r.Throws? ==> exists j :: k <= j < |rows| && ':' !in rows[j].cell
    decreases |rows| - k
  {
    if k >= |rows| then NotFound
    else match ExerciseNameFromRow(rows[k].cell)
      case None => Throws
      case Some(n) => if n == name then Found(k) else FindRow(rows, name, k + 1)
  }

  /** Only rows without ':' in their first cell make the lookup throw. */
  lemma {:induction false} FindRowNeverThrows(rows: seq<Row>, name: string, k: nat)
    requires forall j :: k <= j < |rows| ==> ':' in rows[j].cell
    ensures !FindRow(rows, name, k).Throws?
    decreases |rows| - k
  {
    if k < |rows| {
      FindRowNeverThrows(rows, name, k + 1);
    }
  }

  /** When every row reads back a name, the lookup finds the first row of a name that is there. */
  lemma FindRowByNames(rows: seq<Row>, names: seq<string>, n: string, k: nat)
    requires |names| == |rows|
    requires forall j {:trigger names[j]} :: 0 <= j < |rows| ==> ExerciseNameFromRow(rows[j].cell) == Some(names[j])
    requires exists j :: k <= j < |names| && names[j] == n
    ensures var r := FindRow(rows, n, k);
            r.Found? && names[r.index] == n && forall j :: k <= j < r.index ==> names[j] != n
  {
    var r := FindRow(rows, n, k);
    forall i | k <= i < |rows| ensures ':' in rows[i].cell {
      assert ExerciseNameFromRow(rows[i].cell) == Some(names[i]);
    }
    var j :| k <= j < |names| && names[j] == n;
    assert ExerciseNameFromRow(rows[j].cell) == Some(n);
    assert ExerciseNameFromRow(rows[r.index].cell) == Some(names[r.index]);
  }

  /** The messages the extension posts to the web view. */
  datatype Message =
    | ShowExerciseDescription(descriptionHTML: string)
    | ShowExerciseHint(descriptionHTML: string, hintHTML: string)
    | ExerciseStatusChanged(exercise: string, completed: string)
    | OtherCommand

  /** The origins the listener accepts: none given, the web view itself, or https. */
  predicate TrustedOrigin(origin: string) {
    origin == "" || StartsWith(origin, "vscode-webview://") || StartsWith(origin, "https:")
  }

  const DescriptionTop := "<div id=\"description_top\"></div>"
  const HintSeparator := "<div id=\"hint_separator\" class=\"separator\">Hint!</div>"

  /** What the script reads and writes on the page. */
  datatype Page = Page(rows: seq<Row>, completedCount: nat, description: string)

  /** The count shown is the number of completed rows, and every row shows the button its state calls for. */
  ghost predicate Consistent(p: Page) {
    p.completedCount == CountCompleted(p.rows) && forall j :: 0 <= j < |p.rows| ==> ButtonsAgree(p.rows[j])
  }

  /** `selectExerciseRow`: row `i` becomes the only selected row. */
  function SelectStep(p: Page, i: nat): Page
    requires i < |p.rows|
  {
    p.(rows := seq(|p.rows|, j requires 0 <= j < |p.rows| => p.rows[j].(selected := j == i)))
  }

  /** The rows with the `selected` class removed from all of them. */
  function Unselected(rows: seq<Row>): (r: seq<Row>)
    ensures |r| == |rows|
  {
    seq(|rows|, j requires 0 <= j < |rows| => rows[j].(selected := false))
  }

  /**
    `completeOrReopenExerciseRow`: no row stays selected; row `i` is completed
    exactly when the timestamp is not empty, with the matching button hidden;
    the counter is recomputed.
  */
  function CompleteOrReopenStep(p: Page, i: nat, timestamp: string): Page
    requires i < |p.rows|
  {
    var done := timestamp != "";
    var rows := Unselected(p.rows)[i := p.rows[i].(selected := false, completed := done, completeHidden := done, reopenHidden := !done)];
    p.(rows := rows, completedCount := CountCompleted(rows))
  }

  /** `showDescription` of the text a status change shows. */
  function StatusText(completed: string): string {
    if completed != "" then "Exercise completed on " + completed else ""
  }

  /**
    The message listener: an untrusted origin changes nothing; a description
    or a hint replaces the description area; a status change updates the
    exercise's row when there is one and then shows the completion text,
    unless looking the row up threw.
  */
  function MessageStep(p: Page, origin: string, msg: Message): Page {
    if !TrustedOrigin(origin) then p
    else match msg
      case ShowExerciseDescription(d) => p.(description := DescriptionTop + d)
      case ShowExerciseHint(d, h) => p.(description := DescriptionTop + d + HintSeparator + h)
      case ExerciseStatusChanged(x, c) =>
        (match FindRow(p.rows, x, 0)
         case Throws => p
         case NotFound => p.(description := StatusText(c))
         case Found(i) => CompleteOrReopenStep(p, i, c).(description := StatusText(c)))
      case OtherCommand => p
  }

  /** Selecting a row keeps the page consistent, and that row is then the selected one. */
  lemma SelectStepMeaning(p: Page, i: nat)
    requires i < |p.rows| && Consistent(p)
    ensures var q := SelectStep(p, i);
            Consistent(q) && FirstSelected(q.rows, 0) == Some(i)
            && forall j :: 0 <= j < |q.rows| ==>
                 (q.rows[j].selected <==> j == i) && q.rows[j].(selected := p.rows[j].selected) == p.rows[j]
  {
    var q := SelectStep(p, i);
    CountCompletedOnlyReadsCompleted(p.rows, q.rows);
    assert q.rows[i].selected;
    var f := FirstSelected(q.rows, 0);
    assert f.Some? && q.rows[f.value].selected;
  }

  /**
    Completing or reopening keeps the page consistent, leaves no row selected,
    changes no other row's state, and moves the counter by one exactly when
    the row's state changes.
  */
  lemma CompleteOrReopenStepMeaning(p: Page, i: nat, timestamp: string)
    requires i < |p.rows| && Consistent(p)
    ensures var q := CompleteOrReopenStep(p, i, timestamp);
            Consistent(q) && FirstSelected(q.rows, 0).None?
            && |q.rows| == |p.rows| && q.rows[i].cell == p.rows[i].cell
            && (q.rows[i].completed <==> timestamp != "")
            && (forall j :: 0 <= j < |q.rows| && j != i ==> q.rows[j] == p.rows[j].(selected := false))
            && q.completedCount + (if p.rows[i].completed then 1 else 0)
               == p.completedCount + (if timestamp != "" then 1 else 0)
  {
    var q := CompleteOrReopenStep(p, i, timestamp);
    var cleared := Unselected(p.rows);
    CountCompletedOnlyReadsCompleted(p.rows, cleared);
    CountCompletedUpdate(cleared, i, q.rows[i]);
  }

  /** The listener keeps the page consistent, and an untrusted origin leaves it untouched. */
  lemma MessageStepPreservesConsistency(p: Page, origin: string, msg: Message)
    requires Consistent(p)
    ensures Consistent(MessageStep(p, origin, msg))
    ensures !TrustedOrigin(origin) ==> MessageStep(p, origin, msg) == p
  {
    if TrustedOrigin(origin) && msg.ExerciseStatusChanged? {
      var r := FindRow(p.rows, msg.exercise, 0);
      if r.Found? {
        CompleteOrReopenStepMeaning(p, r.index, msg.completed);
      }
    }
  }

  /**
    A trusted status change for an exercise whose row is found marks that
    row as the status says and shows the completion text.
  */
  lemma StatusChangeUpdatesTheRow(p: Page, origin: string, x: string, completed: string, i: nat)
    requires TrustedOrigin(origin) && Consistent(p)
    requires FindRow(p.rows, x, 0) == Found(i)
    ensures var q := MessageStep(p, origin, ExerciseStatusChanged(x, completed));
            i < |q.rows| && (q.rows[i].completed <==> completed != "")
            && ButtonsAgree(q.rows[i]) && q.description == StatusText(completed)
  {
    CompleteOrReopenStepMeaning(p, i, completed);
  }

  /** The exercise table of the web view and its description area. */
  class Table {
    var rows: seq<Row>
    var completedCount: nat
    var description: string

    function State(): Page
      reads this
    {
      Page(rows, completedCount, description)
    }

    ghost predicate Valid()
      reads this
    {
      Consistent(State())
    }

    /** The page as the extension builds it: the rows, their completed count, and the introduction. */
    constructor (rows: seq<Row>, description: string)
      requires forall j :: 0 <= j < |rows| ==> ButtonsAgree(rows[j])
      ensures State() == Page(rows, CountCompleted(rows), description) && Valid()
    {
      this.rows := rows;
      completedCount := CountCompleted(rows);
      this.description := description;
    }

    /** `getSelectedExerciseRow`: the first selected row, if any. */
    function GetSelectedExerciseRow(): (r: Option<nat>)
      reads this
      ensures r.Some? ==> r.value < |rows| && rows[r.value].selected
      ensures r.None? <==> forall j :: 0 <= j < |rows| ==> !rows[j].selected
    {
      FirstSelected(rows, 0)
    }

    /** Removes the class `selected` from every row, one row at a time. */
    method ClearSelection()
      modifies this
      ensures rows == Unselected(old(rows))
      ensures completedCount == old(completedCount) && description == old(description)
    {
      var k := 0;
      while k < |rows|
        invariant 0 <= k <= |rows| == |old(rows)|
        invariant forall j :: 0 <= j < k ==> rows[j] == old(rows)[j].(selected := false)
        invariant forall j :: k <= j < |rows| ==> rows[j] == old(rows)[j]
        invariant completedCount == old(completedCount) && description == old(description)
      {
        rows := rows[k := rows[k].(selected := false)];
        k := k + 1;
      }
    }

    /** `selectExerciseRow`. */
    method SelectExerciseRow(i: nat)
      requires Valid() && i < |rows|
      modifies this
      ensures Valid() && State() == SelectStep(old(State()), i)
    {
      ghost var p := State();
      ClearSelection();
      rows := rows[i := rows[i].(selected := true)];
      assert State() == SelectStep(p, i);
      SelectStepMeaning(p, i);
    }

    /** `completeOrReopenExerciseRow`. */
    method CompleteOrReopenExerciseRow(i: nat, completedTimestamp: string)
      requires Valid() && i < |rows|
      modifies this
      ensures Valid() && State() == CompleteOrReopenStep(old(State()), i, completedTimestamp)
    {
      ghost var p := State();
      ClearSelection();
      if completedTimestamp != "" {
        rows := rows[i := rows[i].(completed := true, completeHidden := true, reopenHidden := false)];
      } else {
        rows := rows[i := rows[i].(completed := false, completeHidden := false, reopenHidden := true)];
      }
      completedCount := CountCompleted(rows);
      assert State() == CompleteOrReopenStep(p, i, completedTimestamp);
      CompleteOrReopenStepMeaning(p, i, completedTimestamp);
    }

    /** `getExerciseRow`: scans the rows in order for the exercise's name. */
    method GetExerciseRow(exercise: string) returns (r: RowLookup)
      ensures r == FindRow(rows, exercise, 0)
    {
      var i := 0;
      while i < |rows|
        invariant 0 <= i <= |rows|
        invariant FindRow(rows, exercise, 0) == FindRow(rows, exercise, i)
      {
        var name := ExerciseNameFromRow(rows[i].cell);
        if name.None? {
          return Throws;
        }
        if name.value == exercise {
          return Found(i);
        }
        i := i + 1;
      }
      return NotFound;
    }

    /** The `message` event listener. */
    method OnMessage(origin: string, msg: Message)
      requires Valid()
      modifies this
      ensures Valid() && State() == MessageStep(old(State()), origin, msg)
    {
      ghost var p := State();
      if TrustedOrigin(origin) {
        match msg {
          case ShowExerciseDescription(d) =>
            description := DescriptionTop + d;
          case ShowExerciseHint(d, h) =>
            description := DescriptionTop + d + HintSeparator + h;
          case ExerciseStatusChanged(x, c) =>
            var row := GetExerciseRow(x);
            if !row.Throws? {
              if row.Found? {
                CompleteOrReopenExerciseRow(row.index, c);
              }
              description := StatusText(c);
            }
          case OtherCommand =>
        }
      }
      assert State() == MessageStep(p, origin, msg);
      MessageStepPreservesConsistency(p, origin, msg);
    }
  }
}
