/** The six-cell e-mail verification code input: one character per cell and a focus cursor. */
module EmailVerification {

  const CellCount := 6

  /** Each cell holds at most one character. */
  predicate SingleChars(cells: seq<string>) {
    forall i :: 0 <= i < |cells| ==> |cells[i]| <= 1
  }

  /** `code.join("")`; with at most one character per cell it is at most as long as the number of cells. */
  function Join(cells: seq<string>): (r: string)
    ensures |cells| == 0 ==> r == []
    ensures SingleChars(cells) ==> |r| <= |cells|
  {
    if cells == [] then [] else Join(cells[..|cells| - 1]) + cells[|cells| - 1]
  }

  /** When every cell is filled, the code reads the cells in order. */
  lemma {:induction false} JoinFilled(cells: seq<string>)
    requires forall i :: 0 <= i < |cells| ==> |cells[i]| == 1
    ensures |Join(cells)| == |cells|
    ensures forall i :: 0 <= i < |cells| ==> Join(cells)[i] == cells[i][0]
  {
    if cells != [] {
      JoinFilled(cells[..|cells| - 1]);
    }
  }

  class CodeInput {
    var code: seq<string>
    /** The cell holding the focus. */
    var focus: int

    /** Six cells of at most one character, and the focus on one of them. */
    predicate Valid()
      reads this
    {
      |code| == CellCount && SingleChars(code) && 0 <= focus < CellCount
    }

    constructor ()
      ensures code == ["", "", "", "", "", ""] && focus == 0
      ensures Valid()
    {
      code := ["", "", "", "", "", ""];
      focus := 0;
    }

    /** `handleChange` for the cell at `index`: a value of more than one character is refused. */
    method HandleChange(index: int, value: string)
      requires 0 <= index < |code|
      modifies this
      ensures |value| > 1 ==> unchanged(this)
      ensures |value| <= 1 ==> code == old(code)[index := value]
      ensures |value| <= 1 && value != [] && index < CellCount - 1 ==> focus == index + 1
      ensures !(|value| <= 1 && value != [] && index < CellCount - 1) ==> focus == old(focus)
      ensures old(Valid()) ==> Valid()
    {
      if |value| > 1 {
        return;
      }
      code := code[index := value];
      if value != [] && index < CellCount - 1 {
        focus := index + 1;
      }
    }

    /** `handleKeyDown`: Backspace in an empty cell moves the focus back one cell. */
    method HandleKeyDown(index: int, key: string)
      requires 0 <= index < |code|
      modifies this
      ensures code == old(code)
      ensures key == "Backspace" && code[index] == [] && index > 0 ==> focus == index - 1
      ensures !(key == "Backspace" && code[index] == [] && index > 0) ==> focus == old(focus)
      ensures old(Valid()) ==> Valid()
    {
      if key == "Backspace" && code[index] == [] && index > 0 {
        focus := index - 1;
      }
    }

    /** `handleSubmit`: the code passed on is the cells joined, at most six characters. */
    method HandleSubmit() returns (fullCode: string)
      ensures fullCode == Join(code)
      ensures Valid() ==> |fullCode| <= CellCount
    {
      fullCode := Join(code);
    }
  }
}
