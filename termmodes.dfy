/** Terminal attributes, the table that maps them to SSH terminal-mode
    opcodes, the encoded terminal modes of a pty request (section 8 of
    RFC 4254) and the raw-mode transformation of the attributes. */
module TermModes {
  import opened SshWire

  /** Size of termios.c_cc and the indices the raw mode sets (Linux). */
  const NCCS: nat := 32
  const VTIME: nat := 5
  const VMIN: nat := 6

  /** termios.c_iflag bits (Linux). */
  const IGNPAR: bv32 := 0x4
  const ISTRIP: bv32 := 0x20
  const INLCR: bv32 := 0x40
  const IGNCR: bv32 := 0x80
  const ICRNL: bv32 := 0x100
  const IUCLC: bv32 := 0x200
  const IXON: bv32 := 0x400
  const IXANY: bv32 := 0x800
  const IXOFF: bv32 := 0x1000
  /** termios.c_oflag bits (Linux). */
  const OPOST: bv32 := 0x1
  /** termios.c_lflag bits (Linux). */
  const ISIG: bv32 := 0x1
  const ICANON: bv32 := 0x2
  const ECHO: bv32 := 0x8
  const ECHOE: bv32 := 0x10
  const ECHOK: bv32 := 0x20
  const ECHONL: bv32 := 0x40
  const IEXTEN: bv32 := 0x8000

  /** The input and local flags that raw mode switches off. */
  const RawInputCleared: bv32 := ISTRIP | INLCR | IGNCR | ICRNL | IXON | IXANY | IXOFF | IUCLC
  const RawLocalCleared: bv32 := ISIG | ICANON | ECHO | ECHOE | ECHOK | ECHONL | IEXTEN

  /** The terminator opcode of the encoded terminal modes. */
  const TTY_OP_END: byte := 0

  type ControlChars = s: seq<byte> | |s| == NCCS witness seq(NCCS, i => 0)

  /** struct termios: the four flag words and the control characters. */
  datatype Termios = Termios(iflag: bv32, oflag: bv32, cflag: bv32, lflag: bv32, cc: ControlChars)

  /** The type of a termcode table entry: which attribute it reads, if any. */
  datatype TermCodeKind = NoCode | ControlChar | InputFlag | OutputFlag | LocalFlag | ControlFlag | UnknownKind

  /** A table entry: a control-character index or a flag mask. */
  datatype TermCode = TermCode(kind: TermCodeKind, mapcode: bv32)

  /** One encoded terminal mode: an opcode and its uint32 argument. */
  datatype Mode = Mode(opcode: byte, value: uint32)

  /** Entries of kind NoCode and of an unknown kind are never emitted. */
  predicate Emits(kind: TermCodeKind) {
    !(kind.NoCode? || kind.UnknownKind?)
  }

  /** The termcode table: entry i describes opcode i, for opcodes below
      MAX_TERMCODE = |table|. Every opcode fits a byte and every
      control-character index is a valid index of c_cc. */
  predicate ValidTable(table: seq<TermCode>) {
    1 <= |table| <= 0x100 &&
    forall i | 0 <= i < |table| :: table[i].kind == ControlChar ==> table[i].mapcode as int < NCCS
  }

  /** The argument sent for an emitted entry: the control character itself,
      or the flag word masked by the entry's mapcode. */
  function ModeValue(tc: TermCode, t: Termios): (v: uint32)
    requires Emits(tc.kind) && (tc.kind == ControlChar ==> tc.mapcode as int < NCCS)
    ensures tc.kind == ControlChar ==> v < 0x100
  {
    match tc.kind
    case ControlChar => t.cc[tc.mapcode as int]
    case InputFlag => (t.iflag & tc.mapcode) as int
    case OutputFlag => (t.oflag & tc.mapcode) as int
    case LocalFlag => (t.lflag & tc.mapcode) as int
    case ControlFlag => (t.cflag & tc.mapcode) as int
  }

  /** The modes for the opcodes i .. |table|-1, in table order. */
  function ModesFrom(table: seq<TermCode>, t: Termios, i: nat): (r: seq<Mode>)
    requires ValidTable(table) && 1 <= i
    ensures |r| <= if i < |table| then |table| - i else 0
    decreases |table| - i
  {
    if i >= |table| then []
    else
      (if Emits(table[i].kind) then [Mode(i, ModeValue(table[i], t))] else [])
      + ModesFrom(table, t, i + 1)
  }

  /** The modes the client reports for the attributes t. */
  function Modes(table: seq<TermCode>, t: Termios): (r: seq<Mode>)
    requires ValidTable(table)
    ensures |r| < |table|
  {
    ModesFrom(table, t, 1)
  }

  /** Every mode is an emitting entry in [lo, |table|) with its value. */
  ghost predicate ModesFromTable(table: seq<TermCode>, t: Termios, ms: seq<Mode>, lo: nat)
    requires ValidTable(table)
  {
    forall k | 0 <= k < |ms| ::
      lo <= ms[k].opcode < |table| && Emits(table[ms[k].opcode].kind) &&
      ms[k].value == ModeValue(table[ms[k].opcode], t)
  }

  /** Opcodes ascend strictly, so none repeats. */
  ghost predicate StrictlyAscending(ms: seq<Mode>) {
    forall j, k | 0 <= j < k < |ms| :: ms[j].opcode < ms[k].opcode
  }

  /** Every emitting entry in [lo, |table|) is present with its value. */
  ghost predicate CoversTable(table: seq<TermCode>, t: Termios, ms: seq<Mode>, lo: nat)
    requires ValidTable(table)
  {
    forall op | lo <= op < |table| && Emits(table[op].kind) ::
      exists k | 0 <= k < |ms| :: ms[k] == Mode(op, ModeValue(table[op], t))
  }

  /** ModesFrom(i) is the entry for opcode i, if it emits, then ModesFrom(i + 1). */
  lemma ModesFromUnfold(table: seq<TermCode>, t: Termios, i: nat)
    requires ValidTable(table) && 1 <= i < |table|
    ensures Emits(table[i].kind) ==>
      ModesFrom(table, t, i) == [Mode(i, ModeValue(table[i], t))] + ModesFrom(table, t, i + 1)
    ensures !Emits(table[i].kind) ==> ModesFrom(table, t, i) == ModesFrom(table, t, i + 1)
  {
  }

  lemma {:induction false} ModesFromEntries(table: seq<TermCode>, t: Termios, i: nat)
    requires ValidTable(table) && 1 <= i
    ensures ModesFromTable(table, t, ModesFrom(table, t, i), i)
    decreases |table| - i
  {
    if i < |table| {
      ModesFromEntries(table, t, i + 1);
      ModesFromUnfold(table, t, i);
    }
  }

  lemma {:induction false} ModesFromAscending(table: seq<TermCode>, t: Termios, i: nat)
    requires ValidTable(table) && 1 <= i
    ensures StrictlyAscending(ModesFrom(table, t, i))
    decreases |table| - i
  {
    if i < |table| {
      ModesFromAscending(table, t, i + 1);
      ModesFromEntries(table, t, i + 1);
      ModesFromUnfold(table, t, i);
    }
  }

  lemma {:induction false} ModesFromCovers(table: seq<TermCode>, t: Termios, i: nat)
    requires ValidTable(table) && 1 <= i
    ensures CoversTable(table, t, ModesFrom(table, t, i), i)
    decreases |table| - i
  {
    if i < |table| {
      ModesFromCovers(table, t, i + 1);
      ModesFromUnfold(table, t, i);
      var rest := ModesFrom(table, t, i + 1);
      var ms := ModesFrom(table, t, i);
      forall op | i <= op < |table| && Emits(table[op].kind)
        ensures exists k | 0 <= k < |ms| :: ms[k] == Mode(op, ModeValue(table[op], t))
      {
        if op == i {
          assert ms[0] == Mode(op, ModeValue(table[op], t));
        } else {
          var k :| 0 <= k < |rest| && rest[k] == Mode(op, ModeValue(table[op], t));
          if Emits(table[i].kind) {
            assert ms[k + 1] == rest[k];
          } else {
            assert ms[k] == rest[k];
          }
        }
      }
    }
  }

  /** The modes list of the pty request: opcodes strictly ascending over
      1 .. MAX_TERMCODE-1, exactly the entries that are neither NoCode nor of
      an unknown kind, each with the value its kind selects. */
  lemma ModesShape(table: seq<TermCode>, t: Termios)
    requires ValidTable(table)
    ensures ModesFromTable(table, t, Modes(table, t), 1)
    ensures StrictlyAscending(Modes(table, t))
    ensures CoversTable(table, t, Modes(table, t), 1)
  {
    ModesFromEntries(table, t, 1);
    ModesFromAscending(table, t, 1);
    ModesFromCovers(table, t, 1);
  }

  /** One entry on the wire: the opcode byte, then its uint32 argument. */
  function EncodeMode(m: Mode): (r: seq<byte>)
    ensures |r| == 5 && r[0] == m.opcode && r[1..] == EncodeUint32(m.value)
  {
    assert ([m.opcode] + EncodeUint32(m.value))[1..] == EncodeUint32(m.value);
    [m.opcode] + EncodeUint32(m.value)
  }

  function EncodeModeEntries(ms: seq<Mode>): (r: seq<byte>)
    ensures |r| == 5 * |ms|
  {
    if ms == [] then [] else EncodeMode(ms[0]) + EncodeModeEntries(ms[1..])
  }

  /** The encoded terminal modes: the entries, then TTY_OP_END. */
  function EncodeModeList(ms: seq<Mode>): (r: seq<byte>)
    ensures |r| == 5 * |ms| + 1 && r[|r| - 1] == TTY_OP_END
  {
    EncodeModeEntries(ms) + [TTY_OP_END]
  }

  lemma {:induction false} EncodeModeEntriesAppend(ms: seq<Mode>, m: Mode)
    ensures EncodeModeEntries(ms + [m]) == EncodeModeEntries(ms) + EncodeMode(m)
  {
    if ms != [] {
      assert (ms + [m])[1..] == ms[1..] + [m];
      EncodeModeEntriesAppend(ms[1..], m);
    } else {
      assert [m][1..] == [];
    }
  }

  /** Reads an encoded terminal-modes list: opcode/uint32 pairs up to a
      final TTY_OP_END with nothing after it. */
  function ParseModeList(s: seq<byte>): (r: Option<seq<Mode>>)
    decreases |s|
  {
    if |s| == 0 then None
    else if s[0] == TTY_OP_END then (if |s| == 1 then Some([]) else None)
    else if |s| < 5 then None
    else
      match ParseModeList(s[5..])
      case None => None
      case Some(rest) => Some([Mode(s[0], DecodeUint32(s[1..5]))] + rest)
  }

  /** The encoding round-trips whenever no entry uses the terminator opcode. */
  lemma {:induction false} ParseEncodedModeList(ms: seq<Mode>)
    requires forall k | 0 <= k < |ms| :: ms[k].opcode != TTY_OP_END
    ensures ParseModeList(EncodeModeList(ms)) == Some(ms)
  {
    if ms != [] {
      var s := EncodeModeList(ms);
      assert s == EncodeMode(ms[0]) + EncodeModeList(ms[1..]);
      assert s[5..] == EncodeModeList(ms[1..]);
      assert s[0] == ms[0].opcode;
      assert s[1..5] == EncodeUint32(ms[0].value);
      DecodeEncodeUint32(ms[0].value);
      ParseEncodedModeList(ms[1..]);
      assert ms == [ms[0]] + ms[1..];
    }
  }

  /** The modes list reported for the attributes t round-trips to Modes. */
  lemma ParseTableModeList(table: seq<TermCode>, t: Termios)
    requires ValidTable(table)
    ensures ParseModeList(EncodeModeList(Modes(table, t))) == Some(Modes(table, t))
    ensures |EncodeModeList(Modes(table, t))| == 5 * |Modes(table, t)| + 1
  {
    ModesFromEntries(table, t, 1);
    ParseEncodedModeList(Modes(table, t));
  }

  /** cli_tty_setup's transformation of the attributes into raw mode. */
  function RawAttributes(t: Termios): (r: Termios)
    ensures r.iflag & IGNPAR == IGNPAR && r.iflag & RawInputCleared == 0
    ensures r.iflag & !(IGNPAR | RawInputCleared) == t.iflag & !(IGNPAR | RawInputCleared)
    ensures r.lflag & RawLocalCleared == 0
    ensures r.lflag & !RawLocalCleared == t.lflag & !RawLocalCleared
    ensures r.oflag & OPOST == 0 && r.oflag & !OPOST == t.oflag & !OPOST
    ensures r.cflag == t.cflag
    ensures r.cc[VMIN] == 1 && r.cc[VTIME] == 0
    ensures forall i | 0 <= i < NCCS && i != VMIN && i != VTIME :: r.cc[i] == t.cc[i]
  {
    var iflag := ((t.iflag | IGNPAR) & !(ISTRIP | INLCR | IGNCR | ICRNL | IXON | IXANY | IXOFF)) & !IUCLC;
    var lflag := (t.lflag & !(ISIG | ICANON | ECHO | ECHOE | ECHOK | ECHONL)) & !IEXTEN;
    var oflag := t.oflag & !OPOST;
    Termios(iflag, oflag, t.cflag, lflag, t.cc[VMIN := 1][VTIME := 0])
  }
}
