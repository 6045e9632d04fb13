/** The client's interactive session channel: the requests it sends when
    the channel opens, the terminal-mode encoding with its back-patched
    length, the window-change notifications and the raw-mode state of the
    local terminal.

    The session state is one object: the outgoing payload buffer and the
    channel table of the connection, the terminal fields of the client
    (raw-mode flag, saved attributes, pending window change), and two
    traces of what left the process: the payloads handed to the transport
    and the attribute sets passed to tcsetattr. The results of the
    operating-system calls are parameters of the methods that make them. */
module ChanSession {
  import opened SshWire
  import opened TermModes
  import opened ChanRequests
  import opened Buffers

  const STDOUT_FILENO: int := 1

  /** The channel type a channel was opened with; the client session
      channel type is CliChanSess. */
  datatype ChanType = CliChanSess | OtherChanType

  class Channel {
    const remotechan: uint32
    const chanType: ChanType
    var infd: int

    constructor (remotechan: uint32, chanType: ChanType, infd: int)
      ensures this.remotechan == remotechan && this.chanType == chanType && this.infd == infd
    {
      this.remotechan := remotechan;
      this.chanType := chanType;
      this.infd := infd;
    }
  }

  predicate IsSessionChannel(c: Channel?) {
    c != null && c.chanType == CliChanSess
  }

  /** The recipient channel numbers of the session channels among chs, in
      index order. */
  function SessionRecipients(chs: seq<Channel?>): (r: seq<uint32>)
    ensures |r| <= |chs|
  {
    if chs == [] then []
    else
      var last := chs[|chs| - 1];
      SessionRecipients(chs[..|chs| - 1]) + (if IsSessionChannel(last) then [last.remotechan] else [])
  }

  /** There is a window-change recipient exactly when some channel is a
      session channel. */
  lemma {:induction false} SessionRecipientsEmpty(chs: seq<Channel?>)
    ensures SessionRecipients(chs) == [] <==> forall i | 0 <= i < |chs| :: !IsSessionChannel(chs[i])
  {
    if chs != [] {
      var init := chs[..|chs| - 1];
      SessionRecipientsEmpty(init);
      assert forall i | 0 <= i < |init| :: init[i] == chs[i];
    }
  }

  /** Every session channel is a recipient, and every recipient is the
      remote number of a session channel. */
  lemma {:induction false} SessionRecipientsMembers(chs: seq<Channel?>)
    ensures forall i | 0 <= i < |chs| && IsSessionChannel(chs[i]) :: chs[i].remotechan in SessionRecipients(chs)
    ensures forall r | r in SessionRecipients(chs) ::
      exists i | 0 <= i < |chs| :: IsSessionChannel(chs[i]) && chs[i].remotechan == r
  {
    if chs != [] {
      var init := chs[..|chs| - 1];
      SessionRecipientsMembers(init);
      assert forall i | 0 <= i < |init| :: init[i] == chs[i];
    }
  }

  /** The number of session channels among chs. */
  function CountSession(chs: seq<Channel?>): nat {
    if chs == [] then 0
    else CountSession(chs[1..]) + (if IsSessionChannel(chs[0]) then 1 else 0)
  }

  lemma {:induction false} CountSessionSnoc(chs: seq<Channel?>, c: Channel?)
    ensures CountSession(chs + [c]) == CountSession(chs) + (if IsSessionChannel(c) then 1 else 0)
  {
    if chs != [] {
      assert (chs + [c])[1..] == chs[1..] + [c];
      CountSessionSnoc(chs[1..], c);
    }
  }

  /** One recipient per session channel: two session channels with the
      same remote number give two recipients. */
  lemma {:induction false} SessionRecipientsCount(chs: seq<Channel?>)
    ensures |SessionRecipients(chs)| == CountSession(chs)
  {
    if chs != [] {
      var init := chs[..|chs| - 1];
      SessionRecipientsCount(init);
      assert init + [chs[|chs| - 1]] == chs;
      CountSessionSnoc(init, chs[|chs| - 1]);
    }
  }

  /** The session channel at index i is the recipient numbered by the
      session channels before it: recipients follow channel-index order. */
  lemma {:induction false} SessionRecipientsOrder(chs: seq<Channel?>, i: nat)
    requires i < |chs| && IsSessionChannel(chs[i])
    ensures CountSession(chs[..i]) < |SessionRecipients(chs)|
    ensures SessionRecipients(chs)[CountSession(chs[..i])] == chs[i].remotechan
  {
    var init := chs[..|chs| - 1];
    if i == |chs| - 1 {
      SessionRecipientsCount(init);
    } else {
      assert init[..i] == chs[..i];
      SessionRecipientsOrder(init, i);
    }
  }

  /** The requests cli_chansess_winchange sends, one per recipient. */
  function WindowChangeBatch(recipients: seq<uint32>, ws: Option<WinSize>): (r: seq<seq<byte>>)
    ensures |r| == |recipients|
  {
    seq(|recipients|, k requires 0 <= k < |recipients| => WindowChangeMessage(recipients[k], ws))
  }

  /** Each request of the batch reads back as a window-change for its
      recipient, with want-reply FALSE and the window size (or 80x25). */
  lemma WindowChangeBatchLayout(chs: seq<Channel?>, ws: Option<WinSize>)
    ensures var rs := SessionRecipients(chs);
      forall k | 0 <= k < |rs| ::
        ParseChannelRequest(WindowChangeBatch(rs, ws)[k])
          == Some(WindowChange(rs[k], false, DimensionsOf(WinSizeOrDefault(ws))))
  {
    var rs := SessionRecipients(chs);
    forall k | 0 <= k < |rs|
      ensures ParseChannelRequest(WindowChangeBatch(rs, ws)[k])
           == Some(WindowChange(rs[k], false, DimensionsOf(WinSizeOrDefault(ws))))
    {
      WindowChangeLayout(rs[k], ws);
    }
  }

  lemma WindowChangeBatchSnoc(rs: seq<uint32>, r: uint32, ws: Option<WinSize>)
    ensures WindowChangeBatch(rs + [r], ws) == WindowChangeBatch(rs, ws) + [WindowChangeMessage(r, ws)]
  {
  }

  /** The length of every window-change request. */
  const WindowChangeLength: nat := 1 + 4 + 4 + 13 + 1 + 16

  lemma AppendAssoc<T>(a: seq<T>, b: seq<T>, c: seq<T>)
    ensures a + (b + c) == a + b + c
  {
  }

  lemma AppendThree(p: seq<byte>, a: seq<byte>, b: seq<byte>, c: seq<byte>)
    ensures p + (a + b + c) == p + a + b + c
  {
  }

  lemma AppendFour(p: seq<byte>, a: seq<byte>, b: seq<byte>, c: seq<byte>, d: seq<byte>)
    ensures p + (a + b + c + d) == p + a + b + c + d
  {
  }

  /** One more entry written after the entries of done extends done. */
  lemma EntryStep(pre: seq<byte>, done: seq<Mode>, m: Mode)
    ensures pre + EncodeModeEntries(done) + [m.opcode] + EncodeUint32(m.value)
         == pre + EncodeModeEntries(done + [m])
  {
    EncodeModeEntriesAppend(done, m);
    AppendThree(pre, EncodeModeEntries(done), [m.opcode], EncodeUint32(m.value));
  }

  /** Writing y over a placeholder x of the same length, right after c,
      replaces the placeholder and keeps what follows it. */
  lemma PatchPlaceholder(c: seq<byte>, x: seq<byte>, y: seq<byte>, rest: seq<byte>)
    requires |x| == |y|
    ensures WriteInto(c + x + rest, |c|, y) == c + (y + rest)
  {
  }

  /** The "pty-req" request piece by piece, as send_chansess_pty_req writes it. */
  lemma PtyReqParts(rc: uint32, term: Option<seq<byte>>, ws: Option<WinSize>,
                    attrs: Option<Termios>, table: seq<TermCode>)
    requires ValidTable(table) && |TermOrDefault(term)| < 0x1_0000_0000
    ensures PtyReqMessage(rc, term, ws, attrs, table)
         == RequestHeader(rc, PtyReqType) + [0] + EncodeString(TermOrDefault(term))
            + EncodeWinSize(WinSizeOrDefault(ws)) + TermModesString(table, attrs)
  {
  }

  /** The "window-change" request piece by piece, as cli_chansess_winchange
      writes it. */
  lemma WindowChangeParts(rc: uint32, ws: Option<WinSize>)
    ensures WindowChangeMessage(rc, ws)
         == [SSH_MSG_CHANNEL_REQUEST] + EncodeUint32(rc) + EncodeString(WindowChangeType) + [0]
            + EncodeWinSize(WinSizeOrDefault(ws))
  {
  }

  class ClientSession {
    /** ses.writepayload, and ses.channels, the channel table, which
        nothing here changes. */
    const writepayload: Buffer
    const channels: seq<Channel?>
    /** cli_ses.tty_raw_mode, cli_ses.saved_tio and cli_ses.winchange. */
    var ttyRawMode: bool
    var savedTio: Termios
    var winchange: bool
    /** Whether the SIGWINCH handler is installed. */
    var sigwinchInstalled: bool
    /** The payloads handed to the transport, in order. */
    var sent: seq<seq<byte>>
    /** The attribute sets passed to tcsetattr, in order. */
    var tcsetattrCalls: seq<Termios>

    ghost predicate Valid()
      reads writepayload, writepayload.data
    {
      writepayload.Valid()
    }

    /** No message is under construction: the payload buffer is empty. */
    ghost predicate ClearToWrite()
      reads writepayload, writepayload.data
    {
      writepayload.Valid() && writepayload.len == 0
    }

    /** The cursor is at the end of the payload, so writes append. */
    ghost predicate Appending()
      reads writepayload, writepayload.data
    {
      writepayload.Valid() && writepayload.pos == writepayload.len
    }

    ghost function Payload(): seq<byte>
      reads writepayload
    {
      writepayload.contents
    }

    ghost function Room(): int
      reads writepayload
    {
      writepayload.data.Length - writepayload.len
    }

    constructor (payloadSize: nat, channels: seq<Channel?>)
      requires payloadSize < 0x1_0000_0000
      ensures ClearToWrite() && writepayload.data.Length == payloadSize && fresh(writepayload) && fresh(writepayload.data)
      ensures this.channels == channels
      ensures !ttyRawMode && !winchange && !sigwinchInstalled && sent == [] && tcsetattrCalls == []
    {
      writepayload := new Buffer(payloadSize);
      this.channels := channels;
      ttyRawMode := false;
      savedTio := Termios(0, 0, 0, 0, seq(NCCS, i => 0));
      winchange := false;
      sigwinchInstalled := false;
      sent := [];
      tcsetattrCalls := [];
    }

    /** encrypt_packet, as far as this model sees it: the payload is
        handed to the transport and the buffer is emptied. */
    method EncryptPacket()
      requires Valid()
      modifies this`sent, writepayload
      ensures ClearToWrite()
      ensures sent == old(sent) + [old(Payload())]
    {
      assert writepayload.data[..writepayload.len] == Payload();
      sent := sent + [writepayload.data[..writepayload.len]];
      writepayload.Clear();
    }

    /** start_channel_request: the message number, the recipient channel
        and the request type. */
    method StartChannelRequest(channel: Channel, reqtype: seq<byte>)
      requires Appending() && 9 + |reqtype| <= Room()
      modifies writepayload, writepayload.data
      ensures Appending() && Room() == old(Room()) - 9 - |reqtype|
      ensures Payload() == old(Payload()) + RequestHeader(channel.remotechan, reqtype)
    {
      ghost var p0 := Payload();
      writepayload.PutByte(SSH_MSG_CHANNEL_REQUEST);
      assert Payload() == p0 + [SSH_MSG_CHANNEL_REQUEST];
      ghost var p1 := Payload();
      writepayload.PutInt(channel.remotechan);
      assert Payload() == p1 + EncodeUint32(channel.remotechan);
      ghost var p2 := Payload();
      writepayload.PutString(reqtype);
      assert Payload() == p2 + EncodeString(reqtype);
      AppendThree(p0, [SSH_MSG_CHANNEL_REQUEST], EncodeUint32(channel.remotechan), EncodeString(reqtype));
    }

    /** put_winsize: the queried window size, or 80x25 with no pixel size
        when the query failed. */
    method PutWinsize(ws: Option<WinSize>)
      requires Appending() && 16 <= Room()
      modifies writepayload, writepayload.data
      ensures Appending() && Room() == old(Room()) - 16
      ensures Payload() == old(Payload()) + EncodeWinSize(WinSizeOrDefault(ws))
    {
      var size := WinSizeOrDefault(ws);
      ghost var p0 := Payload();
      writepayload.PutInt(size.col);
      ghost var p1 := Payload();
      assert p1 == p0 + EncodeUint32(size.col);
      writepayload.PutInt(size.row);
      ghost var p2 := Payload();
      assert p2 == p1 + EncodeUint32(size.row);
      writepayload.PutInt(size.xpixel);
      ghost var p3 := Payload();
      assert p3 == p2 + EncodeUint32(size.xpixel);
      writepayload.PutInt(size.ypixel);
      assert Payload() == p3 + EncodeUint32(size.ypixel);
      AppendFour(p0, EncodeUint32(size.col), EncodeUint32(size.row), EncodeUint32(size.xpixel), EncodeUint32(size.ypixel));
    }

    /** The loop of put_termcodes: for each opcode 1 .. |table|-1 whose
        table entry emits, the opcode byte and the value read from the
        attributes. */
    method PutModeEntries(tio: Termios, table: seq<TermCode>)
      requires Appending() && ValidTable(table) && 5 * |Modes(table, tio)| <= Room()
      modifies writepayload, writepayload.data
      ensures Appending() && Room() == old(Room()) - 5 * |Modes(table, tio)|
      ensures Payload() == old(Payload()) + EncodeModeEntries(Modes(table, tio))
    {
      var buf := writepayload;
      ghost var before := buf.contents;
      ghost var done: seq<Mode> := [];
      var sshcode := 1;
      while sshcode < |table|
        invariant 1 <= sshcode <= |table|
        invariant Appending()
        invariant Modes(table, tio) == done + ModesFrom(table, tio, sshcode)
        invariant Room() == old(Room()) - 5 * |done|
        invariant buf.contents == before + EncodeModeEntries(done)
      {
        var termcode := table[sshcode];
        if Emits(termcode.kind) {
          var value := ModeValue(termcode, tio);
          ghost var m := Mode(sshcode, value);
          assert ModesFrom(table, tio, sshcode) == [m] + ModesFrom(table, tio, sshcode + 1);
          assert done + ModesFrom(table, tio, sshcode) == (done + [m]) + ModesFrom(table, tio, sshcode + 1);
          ghost var c0 := buf.contents;
          buf.PutByte(sshcode);
          assert buf.contents == c0 + [m.opcode];
          buf.PutInt(value);
          assert buf.contents == c0 + [m.opcode] + EncodeUint32(m.value);
          EntryStep(before, done, m);
          done := done + [m];
        } else {
          assert ModesFrom(table, tio, sshcode) == ModesFrom(table, tio, sshcode + 1);
        }
        sshcode := sshcode + 1;
      }
      assert ModesFrom(table, tio, sshcode) == [];
      assert done == Modes(table, tio);
    }

    /** put_termcodes: a length placeholder, the entries, TTY_OP_END, then
        the placeholder patched with the number of bytes after it and the
        cursor put back at the end. When the attributes cannot be read
        (attrs is None) it writes only a length of 1 and TTY_OP_END. */
    method PutTermcodes(attrs: Option<Termios>, table: seq<TermCode>)
      requires Appending() && ValidTable(table) && |TermModesString(table, attrs)| <= Room()
      modifies writepayload, writepayload.data
      ensures Appending() && Room() == old(Room()) - |TermModesString(table, attrs)|
      ensures Payload() == old(Payload()) + TermModesString(table, attrs)
    {
      var buf := writepayload;
      ghost var before := buf.contents;
      var bufpos1 := buf.pos;
      if attrs.None? {
        buf.PutInt(1);
        buf.PutByte(TTY_OP_END);
        assert buf.contents == before + EncodeUint32(1) + [TTY_OP_END];
        assert EncodeModeList(ReportedModes(table, attrs)) == [TTY_OP_END];
        AppendAssoc(before, EncodeUint32(1), [TTY_OP_END]);
        return;
      }
      var tio := attrs.value;
      ghost var entries := EncodeModeEntries(Modes(table, tio));
      buf.PutInt(0);
      assert buf.contents == before + EncodeUint32(0);
      PutModeEntries(tio, table);
      buf.PutByte(TTY_OP_END);
      assert buf.contents == before + EncodeUint32(0) + entries + [TTY_OP_END];
      AppendAssoc(before + EncodeUint32(0), entries, [TTY_OP_END]);
      var bufpos2 := buf.pos;
      assert bufpos2 - bufpos1 - 4 == |entries| + 1;
      buf.SetPos(bufpos1);
      buf.PutInt(bufpos2 - bufpos1 - 4);
      buf.SetPos(bufpos2);
      PatchPlaceholder(before, EncodeUint32(0), EncodeUint32(|entries| + 1), entries + [TTY_OP_END]);
      assert TermModesString(table, attrs) == EncodeUint32(|entries| + 1) + (entries + [TTY_OP_END]);
    }

    /** The request send_chansess_pty_req writes into the payload before
        handing it to the transport. */
    method PutPtyReq(channel: Channel, term: Option<seq<byte>>, ws: Option<WinSize>,
                     attrs: Option<Termios>, table: seq<TermCode>)
      requires ClearToWrite() && ValidTable(table) && |TermOrDefault(term)| < 0x1_0000_0000
      requires |PtyReqMessage(channel.remotechan, term, ws, attrs, table)| <= writepayload.data.Length
      modifies writepayload, writepayload.data
      ensures Valid() && Payload() == PtyReqMessage(channel.remotechan, term, ws, attrs, table)
    {
      PtyReqParts(channel.remotechan, term, ws, attrs, table);
      StartChannelRequest(channel, PtyReqType);
      ghost var p0 := Payload();
      assert p0 == RequestHeader(channel.remotechan, PtyReqType);
      writepayload.PutByte(0);
      assert Payload() == p0 + [0];
      var name := if term.None? then DefaultTerm else term.value;
      assert name == TermOrDefault(term);
      writepayload.PutString(name);
      ghost var p1 := Payload();
      assert p1 == p0 + [0] + EncodeString(name);
      PutWinsize(ws);
      ghost var p2 := Payload();
      assert p2 == p1 + EncodeWinSize(WinSizeOrDefault(ws));
      PutTermcodes(attrs, table);
      assert Payload() == p2 + TermModesString(table, attrs);
    }

    /** send_chansess_pty_req: the "pty-req" request with want-reply
        FALSE, the terminal type, the window size and the terminal modes;
        then the SIGWINCH handler is installed, and a failure to install it
        ends the client (ok is false). */
    method SendPtyReq(channel: Channel, term: Option<seq<byte>>, ws: Option<WinSize>,
                      attrs: Option<Termios>, table: seq<TermCode>, signalOk: bool) returns (ok: bool)
      requires ClearToWrite() && ValidTable(table) && |TermOrDefault(term)| < 0x1_0000_0000
      requires |PtyReqMessage(channel.remotechan, term, ws, attrs, table)| <= writepayload.data.Length
      modifies this`sent, this`sigwinchInstalled, writepayload, writepayload.data
      ensures ClearToWrite()
      ensures sent == old(sent) + [PtyReqMessage(channel.remotechan, term, ws, attrs, table)]
      ensures ok == signalOk && sigwinchInstalled == (old(sigwinchInstalled) || signalOk)
    {
      PutPtyReq(channel, term, ws, attrs, table);
      EncryptPacket();
      ok := signalOk;
      if ok {
        sigwinchInstalled := true;
      }
    }

    /** send_chansess_shell_req: "exec" with the command when one is
        configured, "shell" with no data otherwise; want-reply FALSE. */
    method SendShellReq(channel: Channel, cmd: Option<seq<byte>>)
      requires ClearToWrite()
      requires cmd.Some? ==> |cmd.value| < 0x1_0000_0000
      requires |ShellReqMessage(channel.remotechan, cmd)| <= writepayload.data.Length
      modifies this`sent, writepayload, writepayload.data
      ensures ClearToWrite()
      ensures sent == old(sent) + [ShellReqMessage(channel.remotechan, cmd)]
    {
      var reqtype := if cmd.Some? then ExecType else ShellType;
      StartChannelRequest(channel, reqtype);
      ghost var header := Payload();
      assert header == RequestHeader(channel.remotechan, reqtype);
      writepayload.PutByte(0);
      assert Payload() == header + [0];
      if cmd.Some? {
        writepayload.PutString(cmd.value);
        assert Payload() == header + [0] + EncodeString(cmd.value);
        assert Payload() == RequestMessage(channel.remotechan, ExecType, EncodeString(cmd.value));
      } else {
        assert Payload() == RequestMessage(channel.remotechan, ShellType, []);
      }
      EncryptPacket();
    }

    /** sigwinch_handler: only records that the window changed. */
    method SigwinchHandler()
      modifies this`winchange
      ensures winchange
    {
      winchange := true;
    }

    /** cli_chansess_winchange: one window-change request per session
        channel, in channel-index order, each with the window size; then
        the pending flag is cleared once. The buffer must be empty only
        when some channel is a session channel: with none, the payload is
        left as it was. */
    method WinChange(ws: Option<WinSize>)
      requires Valid()
      requires SessionRecipients(channels) != [] ==>
        ClearToWrite() && WindowChangeLength <= writepayload.data.Length
      modifies this`sent, this`winchange, writepayload, writepayload.data
      ensures Valid()
      ensures SessionRecipients(channels) != [] ==> ClearToWrite()
      ensures SessionRecipients(channels) == [] ==>
        writepayload.pos == old(writepayload.pos) && Payload() == old(Payload())
      ensures sent == old(sent) + WindowChangeBatch(SessionRecipients(channels), ws)
      ensures !winchange
    {
      SessionRecipientsMembers(channels);
      for i := 0 to |channels|
        invariant Valid()
        invariant SessionRecipients(channels) != [] ==> ClearToWrite()
        invariant SessionRecipients(channels) == [] ==>
          writepayload.pos == old(writepayload.pos) && Payload() == old(Payload())
        invariant sent == old(sent) + WindowChangeBatch(SessionRecipients(channels[..i]), ws)
      {
        var channel := channels[i];
        assert channels[..i + 1][..i] == channels[..i];
        assert channels[..i + 1][i] == channel;
        ghost var rs := SessionRecipients(channels[..i]);
        if channel != null && channel.chanType == CliChanSess {
          assert IsSessionChannel(channels[i]);
          assert SessionRecipients(channels) != [];
          writepayload.PutByte(SSH_MSG_CHANNEL_REQUEST);
          ghost var p1 := Payload();
          assert p1 == [SSH_MSG_CHANNEL_REQUEST];
          writepayload.PutInt(channel.remotechan);
          ghost var p2 := Payload();
          assert p2 == p1 + EncodeUint32(channel.remotechan);
          writepayload.PutString(WindowChangeType);
          ghost var p3 := Payload();
          assert p3 == p2 + EncodeString(WindowChangeType);
          writepayload.PutByte(0);
          ghost var p4 := Payload();
          assert p4 == p3 + [0];
          PutWinsize(ws);
          assert Payload() == p4 + EncodeWinSize(WinSizeOrDefault(ws));
          WindowChangeParts(channel.remotechan, ws);
          ghost var sent0 := sent;
          EncryptPacket();
          assert sent == sent0 + [WindowChangeMessage(channel.remotechan, ws)];
          WindowChangeBatchSnoc(rs, channel.remotechan, ws);
          AppendAssoc(old(sent), WindowChangeBatch(rs, ws), [WindowChangeMessage(channel.remotechan, ws)]);
          assert SessionRecipients(channels[..i + 1]) == rs + [channel.remotechan];
        } else {
          assert SessionRecipients(channels[..i + 1]) == rs;
        }
      }
      assert channels[..|channels|] == channels;
      winchange := false;
    }

    /** cli_tty_setup: unless already raw, save the attributes and apply
        their raw-mode version. Unreadable attributes or a failed apply end
        the client (ok is false). */
    method TtySetup(attrs: Option<Termios>, setOk: bool) returns (ok: bool)
      modifies this`ttyRawMode, this`savedTio, this`tcsetattrCalls
      ensures old(ttyRawMode) ==>
        ok && ttyRawMode && savedTio == old(savedTio) && tcsetattrCalls == old(tcsetattrCalls)
      ensures !old(ttyRawMode) && attrs.None? ==>
        !ok && !ttyRawMode && savedTio == old(savedTio) && tcsetattrCalls == old(tcsetattrCalls)
      ensures !old(ttyRawMode) && attrs.Some? ==>
        savedTio == attrs.value && tcsetattrCalls == old(tcsetattrCalls) + [RawAttributes(attrs.value)] &&
        ok == setOk && ttyRawMode == setOk
    {
      if ttyRawMode {
        return true;
      }
      if attrs.None? {
        return false;
      }
      var tio := attrs.value;
      savedTio := tio;
      tio := RawAttributes(tio);
      tcsetattrCalls := tcsetattrCalls + [tio];
      if !setOk {
        return false;
      }
      ttyRawMode := true;
      ok := true;
    }

    /** cli_tty_cleanup: if raw, try to restore the saved attributes; the
        flag is cleared only when the restore succeeds, so a later call
        tries again. */
    method TtyCleanup(restoreOk: bool)
      modifies this`ttyRawMode, this`tcsetattrCalls
      ensures !old(ttyRawMode) ==> !ttyRawMode && tcsetattrCalls == old(tcsetattrCalls)
      ensures old(ttyRawMode) ==>
        tcsetattrCalls == old(tcsetattrCalls) + [savedTio] && ttyRawMode == !restoreOk
    {
      if !ttyRawMode {
        return;
      }
      tcsetattrCalls := tcsetattrCalls + [savedTio];
      if restoreOk {
        ttyRawMode := false;
      }
    }

    /** cli_closechansess: restore the terminal. */
    method CloseChanSess(restoreOk: bool)
      modifies this`ttyRawMode, this`tcsetattrCalls
      ensures !old(ttyRawMode) ==> !ttyRawMode && tcsetattrCalls == old(tcsetattrCalls)
      ensures old(ttyRawMode) ==>
        tcsetattrCalls == old(tcsetattrCalls) + [savedTio] && ttyRawMode == !restoreOk
    {
      TtyCleanup(restoreOk);
    }

    /** cli_initchansess: the channel writes to standard output; with a pty
        wanted, the pty request goes first; then the shell or exec request;
        then, with a pty, raw mode. ok is false where the client exits.
        attrs is what put_termcodes reads, ttyAttrs what cli_tty_setup
        reads. */
    method InitChanSess(channel: Channel, wantpty: bool, cmd: Option<seq<byte>>,
                        term: Option<seq<byte>>, ws: Option<WinSize>, attrs: Option<Termios>,
                        table: seq<TermCode>, signalOk: bool, ttyAttrs: Option<Termios>, setOk: bool)
      returns (ok: bool)
      requires ClearToWrite() && ValidTable(table)
      requires cmd.Some? ==> |cmd.value| < 0x1_0000_0000
      requires |TermOrDefault(term)| < 0x1_0000_0000
      requires wantpty ==> |PtyReqMessage(channel.remotechan, term, ws, attrs, table)| <= writepayload.data.Length
      requires |ShellReqMessage(channel.remotechan, cmd)| <= writepayload.data.Length
      modifies channel`infd, this`sent, this`sigwinchInstalled, this`ttyRawMode, this`savedTio,
               this`tcsetattrCalls, writepayload, writepayload.data
      ensures ClearToWrite() && channel.infd == STDOUT_FILENO
      ensures !wantpty ==>
        ok && sent == old(sent) + [ShellReqMessage(channel.remotechan, cmd)] &&
        sigwinchInstalled == old(sigwinchInstalled) && ttyRawMode == old(ttyRawMode) &&
        savedTio == old(savedTio) && tcsetattrCalls == old(tcsetattrCalls)
      ensures wantpty && !signalOk ==>
        !ok && sent == old(sent) + [PtyReqMessage(channel.remotechan, term, ws, attrs, table)] &&
        ttyRawMode == old(ttyRawMode) && savedTio == old(savedTio) && tcsetattrCalls == old(tcsetattrCalls)
      ensures wantpty && signalOk ==>
        sent == old(sent) + [PtyReqMessage(channel.remotechan, term, ws, attrs, table),
                             ShellReqMessage(channel.remotechan, cmd)] &&
        sigwinchInstalled &&
        ok == ttyRawMode == (old(ttyRawMode) || (ttyAttrs.Some? && setOk)) &&
        (!old(ttyRawMode) && ttyAttrs.Some? ==>
          savedTio == ttyAttrs.value && tcsetattrCalls == old(tcsetattrCalls) + [RawAttributes(ttyAttrs.value)]) &&
        (old(ttyRawMode) || ttyAttrs.None? ==>
          savedTio == old(savedTio) && tcsetattrCalls == old(tcsetattrCalls))
    {
      channel.infd := STDOUT_FILENO;
      if wantpty {
        ok := SendPtyReq(channel, term, ws, attrs, table, signalOk);
        if !ok {
          return;
        }
      }
      SendShellReq(channel, cmd);
      ok := true;
      if wantpty {
        ok := TtySetup(ttyAttrs, setOk);
      }
    }
  }
}
