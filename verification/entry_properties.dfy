/**
 Properties of the initials editor over sequences of button presses: the
 state invariant, Up and Down as inverse rotations of the alphabet, the
 cycles of Up, Down and Select, and the names a session can produce.
 */
module EntryProperties {
  import opened Entry

  /** `n` presses of the same button. */
  function Repeat(k: Key, n: nat): (keys: seq<Key>) {
    if n == 0 then [] else [k] + Repeat(k, n - 1)
  }

  /** Replaces the cursor cell's letter by `c`. */
  function WithCursorLetter(ui: EntryUi, c: CChar): (r: EntryUi) {
    MapCursorLetter(ui, _ => c)
  }

  /** A rotation is determined by its offset modulo the alphabet's length. */
  lemma RotateCompose(c: char, j: int, k: int)
    requires IsUpper(c)
    ensures Rotate(Rotate(c, j), k) == Rotate(c, j + k)
  {
  }

  /** Rotating a letter by zero, or by a full turn, gives it back. */
  lemma RotateZero(c: char)
    requires IsUpper(c)
    ensures Rotate(c, 0) == c && Rotate(c, AlphabetSize) == c
  {
  }

  /** Every handler keeps the invariant, so every sequence of presses does. */
  lemma {:induction false} RunValid(ui: EntryUi, keys: seq<Key>)
    requires Valid(ui)
    ensures Valid(Run(ui, keys))
    decreases |keys|
  {
    if keys != [] {
      RunValid(Press(ui, keys[0]), keys[1..]);
    }
  }

  /** Pressing `a` and then `b` is pressing `a + b`. */
  lemma {:induction false} RunAppend(ui: EntryUi, a: seq<Key>, b: seq<Key>)
    ensures Run(ui, a + b) == Run(Run(ui, a), b)
    decreases |a|
  {
    if a == [] {
      assert a + b == b;
    } else {
      assert (a + b)[1..] == a[1..] + b;
      RunAppend(Press(ui, a[0]), a[1..], b);
    }
  }

  /** Down undoes Up and Up undoes Down whenever the cursor cell holds a
      letter, and both do nothing when the cursor is off the cells. */
  lemma UpDownInverse(ui: EntryUi)
    requires ui.index >= NumEntryChars || IsUpper(ui.cells[ui.index].letter)
    ensures Down(Up(ui)) == ui
    ensures Up(Down(ui)) == ui
  {
    if ui.index < NumEntryChars {
      var c := ui.cells[ui.index].letter;
      RotateCompose(c, 1, -1);
      RotateCompose(c, -1, 1);
      RotateZero(c);
      assert Down(Up(ui)).cells == ui.cells;
      assert Up(Down(ui)).cells == ui.cells;
    }
  }

  /** `n` presses of Up rotate the cursor cell's letter `n` places forward
      and change nothing else. */
  lemma {:induction false} UpRepeat(ui: EntryUi, n: nat)
    requires Valid(ui)
    ensures Run(ui, Repeat(UpKey, n)) ==
            WithCursorLetter(ui, Rotate(ui.cells[ui.index].letter, n))
    decreases n
  {
    var c := ui.cells[ui.index].letter;
    if n == 0 {
      RotateZero(c);
      assert WithCursorLetter(ui, c).cells == ui.cells;
    } else {
      var u1 := Up(ui);
      UpRepeat(u1, n - 1);
      RotateCompose(c, 1, n - 1);
      assert WithCursorLetter(u1, Rotate(Rotate(c, 1), n - 1)).cells
          == WithCursorLetter(ui, Rotate(c, n)).cells;
    }
  }

  /** `n` presses of Down rotate the cursor cell's letter `n` places back
      and change nothing else. */
  lemma {:induction false} DownRepeat(ui: EntryUi, n: nat)
    requires Valid(ui)
    ensures Run(ui, Repeat(DownKey, n)) ==
            WithCursorLetter(ui, Rotate(ui.cells[ui.index].letter, -(n as int)))
    decreases n
  {
    var c := ui.cells[ui.index].letter;
    if n == 0 {
      RotateZero(c);
      assert WithCursorLetter(ui, c).cells == ui.cells;
    } else {
      var d1 := Down(ui);
      DownRepeat(d1, n - 1);
      RotateCompose(c, -1, -(n as int - 1));
      assert WithCursorLetter(d1, Rotate(Rotate(c, -1), -(n as int - 1))).cells
          == WithCursorLetter(ui, Rotate(c, -(n as int))).cells;
    }
  }

  /** Twenty-six presses of Up, or of Down, leave the editor as it was. */
  lemma FullCycle(ui: EntryUi)
    requires Valid(ui)
    ensures Run(ui, Repeat(UpKey, AlphabetSize)) == ui
    ensures Run(ui, Repeat(DownKey, AlphabetSize)) == ui
  {
    var c := ui.cells[ui.index].letter;
    UpRepeat(ui, AlphabetSize);
    DownRepeat(ui, AlphabetSize);
    RotateZero(c);
    RotateCompose(c, AlphabetSize, -(AlphabetSize as int));
    RotateCompose(c, 0, -(AlphabetSize as int));
    assert WithCursorLetter(ui, c).cells == ui.cells;
  }

  /** `n` presses of Select walk the cursor 0, 1, 2, 0, 1, 2, ... from where
      it was and change no letter. */
  lemma {:induction false} SelectRepeat(ui: EntryUi, n: nat)
    requires Valid(ui)
    ensures Run(ui, Repeat(SelectKey, n)) == ui.(index := (ui.index + n) % NumEntryChars)
    decreases n
  {
    if n > 0 {
      SelectRepeat(Select(ui), n - 1);
    }
  }

  /** Three presses of Select bring the cursor back. */
  lemma SelectCycle(ui: EntryUi)
    requires Valid(ui)
    ensures Run(ui, Repeat(SelectKey, NumEntryChars)) == ui
  {
    SelectRepeat(ui, NumEntryChars);
  }

  /** On a kept state every press changes exactly one thing: Up and Down the
      cursor cell's letter, Select the cursor. */
  lemma PressChangesOneThing(ui: EntryUi)
    requires Valid(ui)
    ensures Up(ui).index == ui.index && Up(ui).cells[ui.index] != ui.cells[ui.index]
    ensures Down(ui).index == ui.index && Down(ui).cells[ui.index] != ui.cells[ui.index]
    ensures Select(ui).cells == ui.cells && Select(ui).index != ui.index
  {
  }

  /** Whatever the presses, closing a session fills the caller's buffer
      with three uppercase letters and a terminator, and nothing more: the
      buffer keeps the length and the tail it has at dismissal, `buf`. */
  lemma SessionName(name: seq<CChar>, keys: seq<Key>, buf: seq<CChar>)
    requires |buf| >= NumEntryChars + 1
    ensures var out := Close(Feed(Open(name), keys), buf);
            && |out| == |buf|
            && (forall i :: 0 <= i < NumEntryChars ==> IsUpper(out[i]))
            && out[NumEntryChars] == Nul
            && out[NumEntryChars + 1..] == buf[NumEntryChars + 1..]
  {
    RunValid(Load(), keys);
  }

  /** Opening and closing without pressing anything gives "AAA". */
  lemma UntouchedIsAAA(name: seq<CChar>, buf: seq<CChar>)
    requires |buf| >= NumEntryChars + 1
    ensures Close(Feed(Open(name), []), buf)[..NumEntryChars + 1] == "AAA\0"
  {
  }

  /** Up, Select, Down, Select, Up, Up gives "BZC": the middle letter wraps
      from 'A' back to 'Z' and the last one is stepped twice. */
  lemma ScenarioBZC(name: seq<CChar>, buf: seq<CChar>)
    requires |buf| >= NumEntryChars + 1
    ensures Close(Feed(Open(name), [UpKey, SelectKey, DownKey, SelectKey, UpKey, UpKey]), buf)
              [..NumEntryChars + 1] == "BZC\0"
  {
    var keys := [UpKey, SelectKey, DownKey, SelectKey, UpKey, UpKey];
    var s0 := Load();
    var s1 := Up(s0);
    var s2 := Select(s1);
    var s3 := Down(s2);
    var s4 := Select(s3);
    var s5 := Up(s4);
    var s6 := Up(s5);
    assert s3.index == 1 && Word(s3) == "BZA";
    assert s6.index == 2 && Word(s6) == "BZC";
    RunAppend(s0, [UpKey], keys[1..]);
    RunAppend(s1, [SelectKey], keys[2..]);
    RunAppend(s2, [DownKey], keys[3..]);
    RunAppend(s3, [SelectKey], keys[4..]);
    RunAppend(s4, [UpKey], keys[5..]);
    assert Run(s0, keys) == s6;
  }

  /** The wrap-around cases: Down on 'A' gives 'Z', Up on 'Z' gives 'A'. */
  lemma Wraparound(ui: EntryUi)
    requires ui.index < NumEntryChars
    ensures ui.cells[ui.index].letter == 'A' ==> Down(ui).cells[ui.index].letter == 'Z'
    ensures ui.cells[ui.index].letter == 'Z' ==> Up(ui).cells[ui.index].letter == 'A'
  {
  }
}
