/** The introduction: five pages turned with "previous", "next", the space bar or
    the skip link, each page's text shown line by line with `**` marking bold runs. */
module GameIntro {
  import opened Text

  /** The number of introduction pages. */
  const INTRO_PAGE_COUNT := 5

  /** What a key press is aimed at: a text field, a text area, an editable element, or anything else. */
  datatype KeyTarget = InputField | TextArea | ContentEditable | OtherTarget

  /** The space bar, as `e.code === 'Space' || e.key === ' ' || e.key === 'Spacebar'` recognises it. */
  predicate IsSpace(code: string, key: string)
  {
    code == "Space" || key == " " || key == "Spacebar"
  }

  class IntroPager {
    var step: int

    ghost predicate Valid()
      reads this
    {
      0 <= step < INTRO_PAGE_COUNT
    }

    constructor ()
      ensures Valid() && step == 0
    {
      step := 0;
    }

    predicate OnLastPage()
      reads this
    {
      step == INTRO_PAGE_COUNT - 1
    }

    /** "Previous" is disabled on the first page. */
    predicate PreviousDisabled()
      reads this
    {
      step == 0
    }

    /** The "next" button and the skip link are shown before the last page only;
        on the last page the primary button starts the game instead. */
    predicate ShowsNext()
      reads this
    {
      step < INTRO_PAGE_COUNT - 1
    }

    predicate ShowsSkip()
      reads this
    {
      step < INTRO_PAGE_COUNT - 1
    }

    /** The "previous" button: one page back, never before the first. */
    method Previous()
      requires Valid()
      modifies this`step
      ensures Valid()
      ensures step == if old(step) == 0 then 0 else old(step) - 1
    {
      step := if 0 < step - 1 then step - 1 else 0;
    }

    /** The "next" button, shown before the last page. */
    method Next()
      requires Valid() && ShowsNext()
      modifies this`step
      ensures Valid() && step == old(step) + 1
    {
      step := step + 1;
    }

    /** The keydown handler. It ignores key presses aimed at a text field, a text
        area or an editable element; the space bar turns the page, or starts the
        game on the last page (the result says whether `onStart` was called). */
    method KeyDown(target: KeyTarget, code: string, key: string) returns (started: bool)
      requires Valid()
      modifies this`step
      ensures Valid()
      ensures started <==> target == OtherTarget && IsSpace(code, key) && old(step) == INTRO_PAGE_COUNT - 1
      ensures step == if target == OtherTarget && IsSpace(code, key) && old(step) < INTRO_PAGE_COUNT - 1
                      then old(step) + 1 else old(step)
    {
      started := false;
      if target != OtherTarget {
        return;
      }
      if IsSpace(code, key) {
        if step < INTRO_PAGE_COUNT - 1 {
          step := if INTRO_PAGE_COUNT - 1 < step + 1 then INTRO_PAGE_COUNT - 1 else step + 1;
        } else {
          started := true;
        }
      }
    }
  }

  /** A run of text, plain or bold. */
  datatype Fragment = Plain(text: string) | Bold(text: string)

  /** One line of `formatContent`: the pieces between `**` markers, the odd-numbered ones bold. */
  function FormatLine(line: string): (frags: seq<Fragment>)
    ensures |frags| == |Split(line, "**")| >= 1
    ensures forall j :: 0 <= j < |frags| ==> frags[j].text == Split(line, "**")[j]
    ensures forall j :: 0 <= j < |frags| ==> (frags[j].Bold? <==> j % 2 == 1)
    ensures forall j :: 0 <= j < |frags| ==> Avoids(frags[j].text, "**")
  {
    JoinSplit(line, "**");
    SplitPieces(line, "**");
    var parts := Split(line, "**");
    seq(|parts|, j requires 0 <= j < |parts| => if j % 2 == 1 then Bold(parts[j]) else Plain(parts[j]))
  }

  /** `formatContent`: the text cut into lines at each newline, each line formatted. */
  function FormatContent(text: string): (lines: seq<seq<Fragment>>)
    ensures |lines| == |Split(text, "\n")| >= 1
    ensures forall i :: 0 <= i < |lines| ==> lines[i] == FormatLine(Split(text, "\n")[i])
  {
    JoinSplit(text, "\n");
    var rows := Split(text, "\n");
    seq(|rows|, i requires 0 <= i < |rows| => FormatLine(rows[i]))
  }

  function Texts(frags: seq<Fragment>): (ts: seq<string>)
    ensures |ts| == |frags| && forall j :: 0 <= j < |frags| ==> ts[j] == frags[j].text
  {
    seq(|frags|, j requires 0 <= j < |frags| => frags[j].text)
  }

  /** Put a formatted line back in its source form: the runs joined by `**`. */
  function UnformatLine(frags: seq<Fragment>): string
  {
    Join(Texts(frags), "**")
  }

  /** Put formatted content back: the lines joined by newlines. */
  function UnformatContent(lines: seq<seq<Fragment>>): string
  {
    Join(seq(|lines|, i requires 0 <= i < |lines| => UnformatLine(lines[i])), "\n")
  }

  /** The formatting loses nothing: re-inserting the `**` markers between the runs
      and the newlines between the lines gives the original text back. */
  lemma FormatContentRoundTrip(text: string)
    ensures UnformatContent(FormatContent(text)) == text
  {
    var rows := Split(text, "\n");
    var lines := FormatContent(text);
    var back := seq(|lines|, i requires 0 <= i < |lines| => UnformatLine(lines[i]));
    forall i | 0 <= i < |lines| ensures back[i] == rows[i] {
      assert Texts(FormatLine(rows[i])) == Split(rows[i], "**");
      JoinSplit(rows[i], "**");
    }
    assert back == rows;
    JoinSplit(text, "\n");
  }

  /** The word between a pair of markers is bold, the text before it plain. */
  lemma FormatLineExample()
    ensures FormatLine("a**b") == [Plain("a"), Bold("b")]
  {
    assert "a**b"[..2][0] == 'a';
    assert "a**b"[1..] == "**b" && "**b"[..2] == "**" && "**b"[2..] == "b";
    assert [] + ["a**b"[0]] == "a";
    assert SplitFrom("a**b", "**", []) == SplitFrom("**b", "**", "a");
    assert [] + "b" == "b";
    assert SplitFrom("**b", "**", "a") == ["a", "b"];
    assert Split("a**b", "**") == ["a", "b"];
  }
}
