/**
 The three-letter initials editor of a high-score screen.

 The editor keeps three one-character C strings (a letter followed by a NUL
 terminator) and a cursor. Up and Down scroll the letter under the cursor
 cyclically through 'A'..'Z', Select moves the cursor cyclically through the
 three cells, loading the screen resets everything to "AAA" with the cursor
 on the first cell, and unloading it copies the three letters, NUL-terminated,
 into the buffer the caller handed over when it asked for a name.

 C `char` values are modelled as characters below 256 with unsigned 8-bit
 wrap-around, and the `uint8_t` cursor as an integer in 0..255 that also
 wraps; both only matter for states the editor itself never reaches.
 */
module Entry {

  /** Number of editable cells. */
  const NumEntryChars: nat := 3

  /** Length of the alphabet the cells scroll through. */
  const AlphabetSize: nat := 26

  /** An unsigned 8-bit integer, the type of the cursor. */
  type Byte = x: int | 0 <= x < 256

  /** A C `char` on the target: an unsigned 8-bit code. */
  type CChar = c: char | c as int < 256 witness 'A'

  const Nul: CChar := '\0'

  predicate IsUpper(c: char) {
    'A' <= c <= 'Z'
  }

  /** Position of a letter in the alphabet: 'A' is 0, 'Z' is 25. */
  function Pos(c: char): (p: int) {
    c as int - 'A' as int
  }

  /** The letter at alphabet position `p`. */
  function LetterAt(p: int): (c: CChar)
    requires 0 <= p < AlphabetSize
    ensures IsUpper(c) && Pos(c) == p
  {
    ('A' as int + p) as char
  }

  /** Reference meaning of scrolling: the letter `k` places further round the
      alphabet (backwards when `k` is negative). */
  function Rotate(c: char, k: int): (r: CChar)
    requires IsUpper(c)
    ensures IsUpper(r)
  {
    LetterAt((Pos(c) + k) % AlphabetSize)
  }

  /** `++c` on an unsigned 8-bit char. */
  function CharInc(c: CChar): (r: CChar) {
    ((c as int + 1) % 256) as char
  }

  /** `--c` on an unsigned 8-bit char. */
  function CharDec(c: CChar): (r: CChar) {
    ((c as int - 1) % 256) as char
  }

  /** One cell: a one-character C string, its letter and its terminator. */
  datatype Cell = Cell(letter: CChar, terminator: CChar)

  /** The fixed array of cells. */
  type Cells = s: seq<Cell> | |s| == NumEntryChars
    witness [Cell('A', '\0'), Cell('A', '\0'), Cell('A', '\0')]

  /** The editor's state: the cells and the cursor. */
  datatype EntryUi = EntryUi(cells: Cells, index: Byte)

  /** The state the editor keeps: cursor on a cell, every cell an uppercase
      letter followed by its terminator. */
  predicate Valid(ui: EntryUi) {
    && ui.index < NumEntryChars
    && forall i :: 0 <= i < NumEntryChars ==>
         IsUpper(ui.cells[i].letter) && ui.cells[i].terminator == Nul
  }

  /** The three letters, in cell order. */
  function Word(ui: EntryUi): (w: seq<CChar>) {
    [ui.cells[0].letter, ui.cells[1].letter, ui.cells[2].letter]
  }

  /** The letter the Up handler leaves in the cursor cell. */
  function NextLetter(c: CChar): (r: CChar)
    ensures IsUpper(c) ==> r == Rotate(c, 1)
    ensures !IsUpper(c) ==> r as int == (c as int + 1) % 256
  {
    if c == 'Z' then 'A' else CharInc(c)
  }

  /** The letter the Down handler leaves in the cursor cell. */
  function PrevLetter(c: CChar): (r: CChar)
    ensures IsUpper(c) ==> r == Rotate(c, -1)
    ensures !IsUpper(c) ==> r as int == (c as int - 1) % 256
  {
    if c == 'A' then 'Z' else CharDec(c)
  }

  /** Replaces the letter of the cursor cell by `f` of it, when the cursor is
      on a cell; otherwise leaves the state alone. */
  function MapCursorLetter(ui: EntryUi, f: CChar -> CChar): (r: EntryUi) {
    if ui.index < NumEntryChars then
      var cell := ui.cells[ui.index];
      ui.(cells := ui.cells[ui.index := cell.(letter := f(cell.letter))])
    else
      ui
  }

  /** The Up button: the cursor cell's letter moves one step forward through
      'A'..'Z', 'Z' wrapping to 'A'. */
  function Up(ui: EntryUi): (r: EntryUi)
    ensures r.index == ui.index
    ensures forall i :: 0 <= i < NumEntryChars && i != ui.index ==> r.cells[i] == ui.cells[i]
    ensures ui.index < NumEntryChars ==>
              r.cells[ui.index].terminator == ui.cells[ui.index].terminator
    ensures ui.index < NumEntryChars && IsUpper(ui.cells[ui.index].letter) ==>
              r.cells[ui.index].letter == Rotate(ui.cells[ui.index].letter, 1)
    ensures ui.index < NumEntryChars && !IsUpper(ui.cells[ui.index].letter) ==>
              r.cells[ui.index].letter as int == (ui.cells[ui.index].letter as int + 1) % 256
    ensures ui.index >= NumEntryChars ==> r == ui
    ensures Valid(ui) ==> Valid(r)
  {
    MapCursorLetter(ui, NextLetter)
  }

  /** The Down button: the cursor cell's letter moves one step back through
      'A'..'Z', 'A' wrapping to 'Z'. */
  function Down(ui: EntryUi): (r: EntryUi)
    ensures r.index == ui.index
    ensures forall i :: 0 <= i < NumEntryChars && i != ui.index ==> r.cells[i] == ui.cells[i]
    ensures ui.index < NumEntryChars ==>
              r.cells[ui.index].terminator == ui.cells[ui.index].terminator
    ensures ui.index < NumEntryChars && IsUpper(ui.cells[ui.index].letter) ==>
              r.cells[ui.index].letter == Rotate(ui.cells[ui.index].letter, -1)
    ensures ui.index < NumEntryChars && !IsUpper(ui.cells[ui.index].letter) ==>
              r.cells[ui.index].letter as int == (ui.cells[ui.index].letter as int - 1) % 256
    ensures ui.index >= NumEntryChars ==> r == ui
    ensures Valid(ui) ==> Valid(r)
  {
    MapCursorLetter(ui, PrevLetter)
  }

  /** The Select button: the cursor moves to the next cell, the last cell
      wrapping to the first. No letter changes. */
  function Select(ui: EntryUi): (r: EntryUi)
    ensures r.cells == ui.cells
    ensures ui.index < NumEntryChars ==> r.index == (ui.index + 1) % NumEntryChars
    ensures ui.index >= NumEntryChars ==> r.index == (ui.index + 1) % 256
    ensures Valid(ui) ==> Valid(r)
  {
    ui.(index := if ui.index == 2 then 0 else (ui.index + 1) % 256)
  }

  /** Loading the screen: cursor on the first cell, every cell the string "A". */
  function Load(): (ui: EntryUi)
    ensures Valid(ui)
    ensures ui.index == 0
    ensures forall i :: 0 <= i < NumEntryChars ==> ui.cells[i] == Cell('A', Nul)
    ensures Word(ui) == "AAA"
  {
    EntryUi(seq(NumEntryChars, _ => Cell('A', Nul)), 0)
  }

  /** What unloading leaves in the caller's buffer: the three letters in
      order, a terminator, and the rest of the buffer as it was. */
  function CopyOut(ui: EntryUi, name: seq<CChar>): (out: seq<CChar>)
    requires |name| >= NumEntryChars + 1
    ensures |out| == |name|
    ensures forall i :: 0 <= i < NumEntryChars ==> out[i] == ui.cells[i].letter
    ensures out[NumEntryChars] == Nul
    ensures forall j :: NumEntryChars < j < |name| ==> out[j] == name[j]
  {
    Word(ui) + [Nul] + name[NumEntryChars + 1..]
  }

  /** Unloading the screen, written as the copy loop it performs. */
  method Unload(ui: EntryUi, name: seq<CChar>) returns (out: seq<CChar>)
    requires |name| >= NumEntryChars + 1
    ensures out == CopyOut(ui, name)
  {
    out := name;
    for i := 0 to NumEntryChars
      invariant |out| == |name|
      invariant forall j :: 0 <= j < i ==> out[j] == ui.cells[j].letter
      invariant forall j :: i <= j < |out| ==> out[j] == name[j]
    {
      out := out[i := ui.cells[i].letter];
    }
    out := out[3 := Nul];
  }

  /** The three buttons. */
  datatype Key = UpKey | DownKey | SelectKey

  /** One button press, dispatched to its handler. */
  function Press(ui: EntryUi, k: Key): (r: EntryUi) {
    match k
    case UpKey => Up(ui)
    case DownKey => Down(ui)
    case SelectKey => Select(ui)
  }

  /** A sequence of button presses, in order. */
  function Run(ui: EntryUi, keys: seq<Key>): (r: EntryUi)
    decreases |keys|
  {
    if keys == [] then ui else Run(Press(ui, keys[0]), keys[1..])
  }

  /** An editing session: the caller's buffer, as it was when it was
      recorded, and the editor's state. The source keeps only the buffer's
      address, so the contents it finally writes into are those the buffer
      holds at dismissal (see `Close`). */
  datatype Session = Session(name: seq<CChar>, ui: EntryUi)

  /** Asking for a name: the buffer is recorded and the screen it pushes is
      loaded. */
  function Open(name: seq<CChar>): (s: Session)
    ensures s.name == name
    ensures Valid(s.ui) && s.ui.index == 0 && Word(s.ui) == "AAA"
  {
    Session(name, Load())
  }

  /** Button presses while the screen is shown. They reach only the
      editor's state, never the caller's buffer. */
  function Feed(s: Session, keys: seq<Key>): (r: Session)
    ensures r.name == s.name
  {
    s.(ui := Run(s.ui, keys))
  }

  /** Dismissing the screen: the letters are written through the recorded
      buffer, whose contents at that moment are `buf`. */
  function Close(s: Session, buf: seq<CChar>): (out: seq<CChar>)
    requires |buf| >= NumEntryChars + 1
    ensures |out| == |buf|
    ensures forall i :: 0 <= i < NumEntryChars ==> out[i] == s.ui.cells[i].letter
    ensures out[NumEntryChars] == Nul
    ensures forall j :: NumEntryChars < j < |buf| ==> out[j] == buf[j]
  {
    CopyOut(s.ui, buf)
  }
}
