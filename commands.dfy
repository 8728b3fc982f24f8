/**
 * dispatchcmd: one byte read from the command FIFO names one command.
 * The read itself is left out; the decoding is a total map from bytes.
 */
module Commands {
  import opened Wrappers

  type Byte = b: int | 0 <= b < 256

  /** The command intents the FIFO can express, with their arguments. */
  datatype Command =
    | View(tag: int)
    | Tag(tag: int)
    | FocusStack(dir: int)
    | CycleLayout(dir: int)
    | FocusMon(dir: int)
    | TagMon(dir: int)
    | SetMfact(delta: int)   // in percent: +0.1 is +10
    | Zoom
    | KillClient
    | ToggleFloating
    | Ignore                 // the default branch: any other byte

  /** Arguments are those a keybinding could give: tags 0-3, directions +-1, steps of 0.1. */
  predicate WellFormed(c: Command)
  {
    match c
    case View(t) => 0 <= t < 4
    case Tag(t) => 0 <= t < 4
    case FocusStack(d) => d == 1 || d == -1
    case CycleLayout(d) => d == 1 || d == -1
    case FocusMon(d) => d == 1 || d == -1
    case TagMon(d) => d == 1 || d == -1
    case SetMfact(d) => d == 10 || d == -10
    case _ => true
  }

  function DispatchCmd(b: Byte): (c: Command)
    ensures WellFormed(c)
  {
    if b == 'a' as int then View(0)
    else if b == 'b' as int then View(1)
    else if b == 'c' as int then View(2)
    else if b == 'd' as int then View(3)
    else if b == 'A' as int then Tag(0)
    else if b == 'B' as int then Tag(1)
    else if b == 'C' as int then Tag(2)
    else if b == 'D' as int then Tag(3)
    else if b == 'w' as int then FocusStack(1)
    else if b == 'W' as int then FocusStack(-1)
    else if b == 'l' as int then CycleLayout(1)
    else if b == 'L' as int then CycleLayout(-1)
    else if b == 'm' as int then FocusMon(1)
    else if b == 'M' as int then FocusMon(-1)
    else if b == 't' as int then TagMon(-1)
    else if b == 'T' as int then TagMon(1)
    else if b == 'r' as int then SetMfact(10)
    else if b == 'R' as int then SetMfact(-10)
    else if b == 'z' as int then Zoom
    else if b == 'q' as int then KillClient
    else if b == 'f' as int then ToggleFloating
    else Ignore
  }

  /** The byte to write into the FIFO for a command, if there is one. */
  function CommandByte(c: Command): (b: Option<Byte>)
    ensures b.None? ==> c == Ignore || !WellFormed(c)
  {
    match c
    case View(t) => if 0 <= t < 4 then Some('a' as int + t) else None
    case Tag(t) => if 0 <= t < 4 then Some('A' as int + t) else None
    case FocusStack(d) => if d == 1 then Some('w' as int) else if d == -1 then Some('W' as int) else None
    case CycleLayout(d) => if d == 1 then Some('l' as int) else if d == -1 then Some('L' as int) else None
    case FocusMon(d) => if d == 1 then Some('m' as int) else if d == -1 then Some('M' as int) else None
    case TagMon(d) => if d == -1 then Some('t' as int) else if d == 1 then Some('T' as int) else None
    case SetMfact(d) => if d == 10 then Some('r' as int) else if d == -10 then Some('R' as int) else None
    case Zoom => Some('z' as int)
    case KillClient => Some('q' as int)
    case ToggleFloating => Some('f' as int)
    case Ignore => None
  }

  /** Writing a command's byte and decoding it gives the command back. */
  lemma DecodeEncode(c: Command)
    requires CommandByte(c).Some?
    ensures DispatchCmd(CommandByte(c).value) == c
  {
  }

  /** Every byte that decodes to a command is that command's byte: the decoding is injective. */
  lemma EncodeDecode(b: Byte)
    requires DispatchCmd(b) != Ignore
    ensures CommandByte(DispatchCmd(b)) == Some(b)
  {
  }

  /** Exactly 21 bytes are commands; all others are ignored. */
  lemma CommandBytes(b: Byte)
    ensures DispatchCmd(b) != Ignore <==> b as char in "abcdABCDwWlLmMtTrRzqf"
  {
  }
}
