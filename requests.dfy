/** The SSH_MSG_CHANNEL_REQUEST messages the client session sends:
    "pty-req", "shell", "exec" and "window-change" (sections 6.2, 6.5 and
    6.7 of RFC 4254), what each one contains, and a reader of that layout
    against which the messages are checked. */
module ChanRequests {
  import opened SshWire
  import opened TermModes

  const SSH_MSG_CHANNEL_REQUEST: byte := 98

  const PtyReqType: seq<byte> := [0x70, 0x74, 0x79, 0x2d, 0x72, 0x65, 0x71]  // "pty-req"
  const ShellType: seq<byte> := [0x73, 0x68, 0x65, 0x6c, 0x6c]  // "shell"
  const ExecType: seq<byte> := [0x65, 0x78, 0x65, 0x63]  // "exec"
  const WindowChangeType: seq<byte> := [0x77, 0x69, 0x6e, 0x64, 0x6f, 0x77, 0x2d, 0x63, 0x68, 0x61, 0x6e, 0x67, 0x65]  // "window-change"

  /** The terminal type sent when TERM is unset. */
  const DefaultTerm: seq<byte> := [0x76, 0x74, 0x31, 0x30, 0x30]  // "vt100"

  type uint16 = x: int | 0 <= x < 0x1_0000

  /** struct winsize, as the TIOCGWINSZ query fills it. */
  datatype WinSize = WinSize(row: uint16, col: uint16, xpixel: uint16, ypixel: uint16)

  /** The size put_winsize sends when the query fails: 80 columns, 25 rows. */
  const DefaultWinSize: WinSize := WinSize(25, 80, 0, 0)

  function WinSizeOrDefault(query: Option<WinSize>): WinSize {
    match query
    case None => DefaultWinSize
    case Some(ws) => ws
  }

  /** The four uint32 dimensions of a request, in wire order. */
  datatype Dimensions = Dimensions(cols: uint32, rows: uint32, width: uint32, height: uint32)

  function DimensionsOf(ws: WinSize): Dimensions {
    Dimensions(ws.col, ws.row, ws.xpixel, ws.ypixel)
  }

  /** What put_winsize writes: columns, rows, pixel width, pixel height. */
  function EncodeWinSize(ws: WinSize): (r: seq<byte>)
    ensures |r| == 16
  {
    EncodeUint32(ws.col) + EncodeUint32(ws.row) + EncodeUint32(ws.xpixel) + EncodeUint32(ws.ypixel)
  }

  function ReadDimensions(s: seq<byte>): Option<(Dimensions, seq<byte>)> {
    match ReadUint32(s)
    case None => None
    case Some((cols, s1)) =>
      match ReadUint32(s1)
      case None => None
      case Some((rows, s2)) =>
        match ReadUint32(s2)
        case None => None
        case Some((width, s3)) =>
          match ReadUint32(s3)
          case None => None
          case Some((height, s4)) => Some((Dimensions(cols, rows, width, height), s4))
  }

  lemma ReadEncodedWinSize(ws: WinSize, rest: seq<byte>)
    ensures ReadDimensions(EncodeWinSize(ws) + rest) == Some((DimensionsOf(ws), rest))
  {
    var a, b, c, d := EncodeUint32(ws.col), EncodeUint32(ws.row), EncodeUint32(ws.xpixel), EncodeUint32(ws.ypixel);
    assert EncodeWinSize(ws) + rest == a + (b + (c + (d + rest)));
    ReadEncodedUint32(ws.col, b + (c + (d + rest)));
    ReadEncodedUint32(ws.row, c + (d + rest));
    ReadEncodedUint32(ws.xpixel, d + rest);
    ReadEncodedUint32(ws.ypixel, rest);
  }

  /** What start_channel_request writes: the message number, the
      recipient channel and the request type. */
  function RequestHeader(recipient: uint32, reqtype: seq<byte>): seq<byte>
    requires |reqtype| < 0x1_0000_0000
  {
    [SSH_MSG_CHANNEL_REQUEST] + EncodeUint32(recipient) + EncodeString(reqtype)
  }

  /** A whole request: the header, want-reply FALSE, then the type's data. */
  function RequestMessage(recipient: uint32, reqtype: seq<byte>, data: seq<byte>): seq<byte>
    requires |reqtype| < 0x1_0000_0000
  {
    RequestHeader(recipient, reqtype) + [0] + data
  }

  function TermOrDefault(term: Option<seq<byte>>): seq<byte> {
    match term
    case None => DefaultTerm
    case Some(name) => name
  }

  /** The modes put_termcodes reports: none when the attributes could not
      be read, otherwise those of the table. */
  function ReportedModes(table: seq<TermCode>, attrs: Option<Termios>): seq<Mode>
    requires ValidTable(table)
  {
    match attrs
    case None => []
    case Some(t) => Modes(table, t)
  }

  /** What put_termcodes writes: the encoded terminal modes as a string. */
  function TermModesString(table: seq<TermCode>, attrs: Option<Termios>): (r: seq<byte>)
    requires ValidTable(table)
    ensures |r| == 5 * |ReportedModes(table, attrs)| + 5
  {
    EncodeString(EncodeModeList(ReportedModes(table, attrs)))
  }

  /** The first four bytes of the terminal modes hold the number of bytes
      after them; without attributes that is the single TTY_OP_END. */
  lemma TermModesLength(table: seq<TermCode>, attrs: Option<Termios>)
    requires ValidTable(table)
    ensures var s := TermModesString(table, attrs);
      DecodeUint32(s[..4]) == |s| - 4 &&
      (attrs.None? ==> s == EncodeUint32(1) + [TTY_OP_END])
  {
    var list := EncodeModeList(ReportedModes(table, attrs));
    var s := TermModesString(table, attrs);
    assert s[..4] == EncodeUint32(|list|);
    DecodeEncodeUint32(|list|);
    if attrs.None? {
      assert list == [TTY_OP_END];
    }
  }

  /** The "pty-req" request of send_chansess_pty_req. */
  function PtyReqMessage(recipient: uint32, term: Option<seq<byte>>, ws: Option<WinSize>,
                         attrs: Option<Termios>, table: seq<TermCode>): seq<byte>
    requires ValidTable(table) && |TermOrDefault(term)| < 0x1_0000_0000
  {
    RequestMessage(recipient, PtyReqType,
      EncodeString(TermOrDefault(term)) + EncodeWinSize(WinSizeOrDefault(ws)) + TermModesString(table, attrs))
  }

  /** The "shell" or "exec" request of send_chansess_shell_req. */
  function ShellReqMessage(recipient: uint32, cmd: Option<seq<byte>>): seq<byte>
    requires cmd.Some? ==> |cmd.value| < 0x1_0000_0000
  {
    match cmd
    case None => RequestMessage(recipient, ShellType, [])
    case Some(c) => RequestMessage(recipient, ExecType, EncodeString(c))
  }

  /** The "window-change" request of cli_chansess_winchange. */
  function WindowChangeMessage(recipient: uint32, ws: Option<WinSize>): seq<byte> {
    RequestMessage(recipient, WindowChangeType, EncodeWinSize(WinSizeOrDefault(ws)))
  }

  /** A channel request as the server reads it. */
  datatype ChannelRequest =
    | PtyReq(recipient: uint32, wantReply: bool, term: seq<byte>, dims: Dimensions, modes: seq<Mode>)
    | Shell(recipient: uint32, wantReply: bool)
    | Exec(recipient: uint32, wantReply: bool, command: seq<byte>)
    | WindowChange(recipient: uint32, wantReply: bool, dims: Dimensions)

  /** Reads a channel request of one of the four types above. */
  function ParseChannelRequest(msg: seq<byte>): Option<ChannelRequest> {
    if |msg| == 0 || msg[0] != SSH_MSG_CHANNEL_REQUEST then None
    else
      match ReadUint32(msg[1..])
      case None => None
      case Some((recipient, s1)) =>
        match ReadString(s1)
        case None => None
        case Some((reqtype, s2)) =>
          if |s2| == 0 then None
          else ParseRequestData(recipient, s2[0] != 0, reqtype, s2[1..])
  }

  function ParseRequestData(recipient: uint32, wantReply: bool, reqtype: seq<byte>, s: seq<byte>)
    : Option<ChannelRequest>
  {
    if reqtype == PtyReqType then
      match ReadString(s)
      case None => None
      case Some((term, s1)) =>
        match ReadDimensions(s1)
        case None => None
        case Some((dims, s2)) =>
          match ReadString(s2)
          case None => None
          case Some((modes, s3)) =>
            match ParseModeList(modes)
            case None => None
            case Some(ms) => if s3 == [] then Some(PtyReq(recipient, wantReply, term, dims, ms)) else None
    else if reqtype == ShellType then
      if s == [] then Some(Shell(recipient, wantReply)) else None
    else if reqtype == ExecType then
      match ReadString(s)
      case None => None
      case Some((command, s1)) => if s1 == [] then Some(Exec(recipient, wantReply, command)) else None
    else if reqtype == WindowChangeType then
      match ReadDimensions(s)
      case None => None
      case Some((dims, s1)) => if s1 == [] then Some(WindowChange(recipient, wantReply, dims)) else None
    else None
  }

  /** Every request built here reads back with want-reply FALSE and its
      recipient and type data. */
  lemma ParseRequestMessage(recipient: uint32, reqtype: seq<byte>, data: seq<byte>)
    requires |reqtype| < 0x1_0000_0000
    ensures ParseChannelRequest(RequestMessage(recipient, reqtype, data))
         == ParseRequestData(recipient, false, reqtype, data)
  {
    var msg := RequestMessage(recipient, reqtype, data);
    var rest := EncodeString(reqtype) + ([0] + data);
    assert msg == [SSH_MSG_CHANNEL_REQUEST] + (EncodeUint32(recipient) + rest);
    assert msg[1..] == EncodeUint32(recipient) + rest;
    ReadEncodedUint32(recipient, rest);
    ReadEncodedString(reqtype, [0] + data);
    assert ([0] + data)[1..] == data;
  }

  /** pty-req: recipient, want-reply FALSE, TERM or "vt100", the window
      size or 80x25 with no pixel size, and the modes of the table (none
      when the attributes could not be read). */
  lemma PtyReqLayout(recipient: uint32, term: Option<seq<byte>>, ws: Option<WinSize>,
                     attrs: Option<Termios>, table: seq<TermCode>)
    requires ValidTable(table) && |TermOrDefault(term)| < 0x1_0000_0000
    ensures ParseChannelRequest(PtyReqMessage(recipient, term, ws, attrs, table))
         == Some(PtyReq(recipient, false, TermOrDefault(term),
                        DimensionsOf(WinSizeOrDefault(ws)), ReportedModes(table, attrs)))
  {
    var name := TermOrDefault(term);
    var size := WinSizeOrDefault(ws);
    var modes := TermModesString(table, attrs);
    var list := EncodeModeList(ReportedModes(table, attrs));
    ParseRequestMessage(recipient, PtyReqType, EncodeString(name) + EncodeWinSize(size) + modes);
    assert EncodeString(name) + EncodeWinSize(size) + modes == EncodeString(name) + (EncodeWinSize(size) + modes);
    ReadEncodedString(name, EncodeWinSize(size) + modes);
    ReadEncodedWinSize(size, modes);
    assert modes == EncodeString(list) + [];
    ReadEncodedString(list, []);
    match attrs {
      case None =>
        ParseEncodedModeList([]);
      case Some(t) =>
        ParseTableModeList(table, t);
    }
  }

  /** shell/exec: "exec" with the command exactly when one is configured,
      otherwise "shell" with nothing after want-reply FALSE. */
  lemma ShellReqLayout(recipient: uint32, cmd: Option<seq<byte>>)
    requires cmd.Some? ==> |cmd.value| < 0x1_0000_0000
    ensures ParseChannelRequest(ShellReqMessage(recipient, cmd))
         == Some(match cmd
                 case None => Shell(recipient, false)
                 case Some(c) => Exec(recipient, false, c))
  {
    match cmd {
      case None =>
        ParseRequestMessage(recipient, ShellType, []);
      case Some(c) =>
        ParseRequestMessage(recipient, ExecType, EncodeString(c));
        assert EncodeString(c) == EncodeString(c) + [];
        ReadEncodedString(c, []);
    }
  }

  lemma WindowChangeData(recipient: uint32, size: WinSize)
    ensures ParseRequestData(recipient, false, WindowChangeType, EncodeWinSize(size))
         == Some(WindowChange(recipient, false, DimensionsOf(size)))
  {
    assert EncodeWinSize(size) == EncodeWinSize(size) + [];
    ReadEncodedWinSize(size, []);
  }

  /** window-change: recipient, want-reply FALSE and the window size (or
      80x25 with no pixel size). */
  lemma WindowChangeLayout(recipient: uint32, ws: Option<WinSize>)
    ensures ParseChannelRequest(WindowChangeMessage(recipient, ws))
         == Some(WindowChange(recipient, false, DimensionsOf(WinSizeOrDefault(ws))))
  {
    var size := WinSizeOrDefault(ws);
    ParseRequestMessage(recipient, WindowChangeType, EncodeWinSize(size));
    WindowChangeData(recipient, size);
  }
}
