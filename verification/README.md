# Initials entry editor

This project models the high-score initials editor of a smartwatch arcade game
(`src/entry.c`). The editor holds three one-character C strings and a cursor:

- Up and Down scroll the letter under the cursor cyclically through 'A'..'Z'.
- Select moves the cursor cyclically through the three cells.
- Loading the screen resets the editor to "AAA" with the cursor on the first cell.
- Unloading the screen copies the three letters into the caller's buffer and
  NUL-terminates it. That buffer was recorded when the caller asked for a name.

The model is functional. `Entry` (`entry.dfy`) holds the state record
`EntryUi`, made of three `Cell`s (letter and terminator) and a `uint8_t`
cursor. It also holds the handlers as pure functions, key dispatch (`Press`,
`Run`), and the copy-out, both as a declarative function (`CopyOut`) and as
the source's loop (`Unload`). It also holds a `Session`, which pairs the
recorded buffer with the editor state (`Open`, `Feed`, `Close`). The source
records only the buffer's address, and writes through it at dismissal. So
`Close` takes the buffer's contents at that moment, which need not be its
contents when it was recorded. Button presses never touch the buffer.
`EntryProperties` (`entry_properties.dfy`) proves properties over sequences
of presses. These cover the invariant, Up and Down as inverse rotations, the
26-press and 3-press cycles, and the names a session can produce.

C `char` is modelled as an unsigned 8-bit code, which is what the target's
compiler uses. `++` and `--` wrap modulo 256, and so does `++` on the
`uint8_t` cursor. Both wraps only matter in states the editor never reaches
from a load. They are modelled so that the handlers are total, as in C.

The six presses Up, Select, Down, Select, Up, Up produce "BZC": the first
letter is stepped once, the second wraps from 'A' back to 'Z', and the third
is stepped twice (`ScenarioBZC`).

## Model

| member | source | states |
|---|---|---|
| Entry.NextLetter | src/entry.c:53-57 | On a letter, the result is the letter one place further round the alphabet, so 'Z' goes to 'A'. On any other code it is the code plus one, modulo 256. |
| Entry.PrevLetter | src/entry.c:69-73 | On a letter, the result is the letter one place back round the alphabet, so 'A' goes to 'Z'. On any other code it is the code minus one, modulo 256. |
| Entry.Up | src/entry.c:49-63 | With the cursor on a cell, that cell's letter rotates one place forward. Its terminator, every other cell and the cursor are unchanged. With the cursor at 3 or beyond, nothing changes. The invariant is kept. |
| Entry.Down | src/entry.c:65-79 | With the cursor on a cell, that cell's letter rotates one place back. Its terminator, every other cell and the cursor are unchanged. With the cursor at 3 or beyond, nothing changes. The invariant is kept. |
| Entry.Select | src/entry.c:81-88 | Letters are unchanged. A cursor in 0..2 moves to (cursor + 1) mod 3. Any other cursor value is incremented modulo 256. The invariant is kept. |
| Entry.Load | src/entry.c:120-123 | The cursor is 0, every cell is the string "A" (letter 'A', then NUL), the word is "AAA", and the invariant holds. |
| Entry.CopyOut | src/entry.c:146-150 | The buffer keeps its length. Position i holds cell i's letter for i in 0..2, position 3 holds NUL, and every later position is unchanged. A buffer of at least 4 characters is required. |
| Entry.Unload | src/entry.c:146-150 | The source's copy loop followed by the terminator store produces exactly `CopyOut` of the state and buffer. |
| Entry.Open | src/entry.c:180-181 | The session records the caller's buffer. Its state is freshly loaded: it satisfies the invariant, has the cursor at 0 and reads "AAA". |
| Entry.Feed | src/entry.c:49-88 | Button presses while the screen is shown leave the recorded buffer as it was; only the editor state changes. |
| Entry.Close | src/entry.c:146-150 | Dismissal writes through the recorded buffer. Given its contents at that moment (at least 4 characters), position i holds cell i's letter for i in 0..2 and position 3 holds NUL. The buffer keeps its length and every later position keeps its contents at dismissal. |
| EntryProperties.RunValid | src/entry.c:49-88 | From any state satisfying the invariant, every sequence of Up, Down and Select presses keeps it. The invariant is cursor in 0..2 and every cell an uppercase letter followed by NUL. |
| EntryProperties.UpDownInverse | src/entry.c:49-79 | If the cursor cell holds a letter, or the cursor is off the cells, Down undoes Up and Up undoes Down. |
| EntryProperties.UpRepeat | src/entry.c:52-57 | n Up presses rotate the cursor cell's letter n places forward and change nothing else. |
| EntryProperties.DownRepeat | src/entry.c:68-73 | n Down presses rotate the cursor cell's letter n places back and change nothing else. |
| EntryProperties.FullCycle | src/entry.c:49-79 | 26 Up presses, or 26 Down presses, return the editor to the state it was in. |
| EntryProperties.SelectRepeat | src/entry.c:84-88 | n Select presses move the cursor to (cursor + n) mod 3, so it runs 0, 1, 2, 0, ... No letter changes. |
| EntryProperties.SelectCycle | src/entry.c:84-88 | Three Select presses return the editor to the state it was in. |
| EntryProperties.PressChangesOneThing | src/entry.c:49-88 | On a kept state, Up and Down change the cursor cell and keep the cursor. Select moves the cursor and keeps every cell. |
| EntryProperties.SessionName | src/entry.c:142-150 | After opening and any presses, closing on a buffer of at least 4 characters leaves three uppercase letters and a NUL in it. The buffer keeps its length, and everything past position 3 keeps its contents at dismissal. |
| EntryProperties.UntouchedIsAAA | src/entry.c:120-150 | Opening and closing with no presses writes "AAA" and a NUL. |
| EntryProperties.ScenarioBZC | src/entry.c:49-88 | Up, Select, Down, Select, Up, Up writes "BZC" and a NUL. |
| EntryProperties.Wraparound | src/entry.c:49-79 | Down on 'A' gives 'Z', and Up on 'Z' gives 'A'. |

## Left out

- Rendering: the framebuffer inversion procedure, the text layers, fonts, the highlight frame geometry and the redraw requests. They are calls into the watch's UI framework, which is not part of this model.
- Click subscription and the 100 ms auto-repeat of Up and Down. The host dispatches these, so a held button is modelled as repeated single presses (`Run`).
- `entry_init` and `entry_deinit`: these only create the window, allocate and free the state, and register handlers.
- The window-stack push in `entry_get_name`, and the host-driven dismissal that triggers unload. `Open` applies the load that the push causes, and `Close` is an explicit final operation.
- Buffer identity: the source keeps a pointer to the caller's buffer. The model keeps the buffer's contents when it was recorded, and `Close` receives its contents at dismissal. Any writes the caller makes in between are therefore reflected, but aliasing between that buffer and other memory is not modelled.
- The two SDK-version branches. They differ only in rendering.
- Entry.CopyOut and Entry.Close: a buffer shorter than 4 characters is undefined behaviour in the source, so the model requires at least 4 rather than modelling an out-of-bounds write.
