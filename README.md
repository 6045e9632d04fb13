# Client session channel of the dropbear SSH client

This project models `cli-chansession.c`, the client side of the interactive
session channel, and proves properties of that model. When the session
channel opens, the client does three things:

- it sends a "pty-req" channel request (RFC 4254, section 6.2) when a
  terminal is wanted, carrying the terminal type, the window size and the
  encoded terminal modes (RFC 4254, section 8);
- it sends a "shell" or "exec" request (RFC 4254, section 6.5);
- it puts the local terminal into raw mode.

Later, a SIGWINCH sets a pending flag, and `cli_chansess_winchange` sends a
"window-change" request (RFC 4254, section 6.7) on every session channel.

The files:

- `wire.dfy` (module `SshWire`): bytes, big-endian `uint32` and
  length-prefixed strings (RFC 4251, section 5), each with a reader and
  round-trip lemmas.
- `termmodes.dfy` (module `TermModes`): `struct termios`, the termcode
  table, the list of modes `put_termcodes` reports, its wire encoding and a
  parser for it, and the raw-mode transformation of `cli_tty_setup`.
- `requests.dfy` (module `ChanRequests`): the four request messages as
  functions, and a parser for the layout the server reads. The layout lemmas
  show that each message reads back as the request it is meant to be.
- `buffer.dfy` (module `Buffers`): the positioned payload buffer, `class
  Buffer`. It holds a fixed array, a cursor `pos`, a length `len` and the
  ghost sequence of bytes written so far. Each write is proved against
  `WriteInto`, which overwrites at `pos` and grows the buffer when the write
  runs past its end.
- `chansession.dfy` (module `ChanSession`): `class ClientSession`. It holds
  the payload buffer, the channel table, `tty_raw_mode`, `saved_tio`,
  `winchange` and whether the SIGWINCH handler is installed. It also keeps
  two traces of what left the process: the payloads handed to
  `encrypt_packet`, and the attribute sets passed to `tcsetattr`. Every
  function of the C file except `cli_send_chansess_request` is a method of
  it. The methods that write requests state the new payload, or the new
  trace of sent payloads, in terms of the message functions of
  `ChanRequests`. The terminal methods (`TtySetup`, `TtyCleanup`,
  `CloseChanSess`) state the new raw-mode flag, saved attributes and
  `tcsetattr` trace. `SigwinchHandler` states the new pending flag.

Operating-system results are parameters of the methods that ask for them:

- `tcgetattr` is an `Option<Termios>`;
- `ioctl(TIOCGWINSZ)` is an `Option<WinSize>`;
- `getenv("TERM")` is an `Option` of bytes;
- the success of `tcsetattr` and of `signal` are booleans.

A call to `dropbear_exit` is an `ok == false` result. A buffer overflow,
which also ends the client, is excluded by a precondition that the message
fits.

## Model

| member | source | states |
|---|---|---|
| SshWire.EncodeUint32 | cli-chansession.c:48 | `buf_putint` writes four bytes; `DecodeEncodeUint32` and `EncodeDecodeUint32` prove they are the big-endian digits of the number |
| SshWire.DecodeEncodeUint32 | cli-chansession.c:48 | the four bytes `buf_putint` writes read back as the number written |
| SshWire.EncodeDecodeUint32 | cli-chansession.c:48 | every four bytes are the encoding of their big-endian value, so the encoding is onto |
| SshWire.ReadUint32 | cli-chansession.c:48 | a reader fails exactly on fewer than four bytes; otherwise the encoding of what it read, followed by the rest, is its input |
| SshWire.ReadEncodedUint32 | cli-chansession.c:48 | reading an encoded uint32 gives back the number and the bytes after it |
| SshWire.EncodeString | cli-chansession.c:50 | `buf_putstring` writes four length bytes plus the string |
| SshWire.ReadString | cli-chansession.c:50 | a string read back re-encodes to the input it consumed, and its length fits a uint32 |
| SshWire.ReadEncodedString | cli-chansession.c:50 | reading an encoded string gives back the string and the bytes after it |
| TermModes.Emits | cli-chansession.c:140-168 | the entries the switch skips: TERMCODE_NONE and any unknown type; `ModesShape` proves that exactly the other entries are reported |
| TermModes.ModeValue | cli-chansession.c:140-168 | the value of a control-character entry fits in a byte, since it is a `c_cc` element |
| TermModes.ModesFrom | cli-chansession.c:135-173 | the modes for opcodes i up to the end of the table number at most the opcodes left |
| TermModes.Modes | cli-chansession.c:135-173 | there are fewer modes than table entries; `ModesShape` proves which opcodes appear |
| TermModes.ModesFromUnfold | cli-chansession.c:137-172 | one iteration of the loop: an emitting entry adds its opcode and value; a NONE or unknown entry adds nothing |
| TermModes.ModesFromEntries | cli-chansession.c:135-173 | every reported mode is an emitting entry from the visited range, with the value its kind selects |
| TermModes.ModesFromAscending | cli-chansession.c:135 | reported opcodes strictly ascend, so none repeats |
| TermModes.ModesFromCovers | cli-chansession.c:135-173 | every emitting entry in the visited range is reported with its value |
| TermModes.ModesShape | cli-chansession.c:135-173 | the mode list contains exactly the emitting entries of opcodes 1 .. MAX_TERMCODE-1, in ascending order, each with its value |
| TermModes.EncodeMode | cli-chansession.c:171-172 | an entry is five bytes: the opcode byte, then the value as a uint32 |
| TermModes.EncodeModeEntries | cli-chansession.c:135-173 | k entries take 5·k bytes |
| TermModes.EncodeModeList | cli-chansession.c:135-175 | the list takes 5·k+1 bytes and ends with TTY_OP_END |
| TermModes.EncodeModeEntriesAppend | cli-chansession.c:171-172 | one more iteration appends one entry's encoding to what is already written |
| TermModes.ParseEncodedModeList | cli-chansession.c:135-175 | when no entry uses opcode 0, the encoded list parses back to the same modes |
| TermModes.ParseTableModeList | cli-chansession.c:135-175 | the list written for any attributes parses back to the modes of the table, and is 5·k+1 bytes long |
| TermModes.RawAttributes | cli-chansession.c:71-85 | raw mode sets IGNPAR and clears ISTRIP, INLCR, IGNCR, ICRNL, IXON, IXANY, IXOFF and IUCLC in c_iflag, clears ISIG, ICANON, ECHO, ECHOE, ECHOK, ECHONL and IEXTEN in c_lflag, and clears OPOST in c_oflag; it sets VMIN to 1 and VTIME to 0; every other bit and control character is unchanged |
| ChanRequests.EncodeWinSize | cli-chansession.c:199-202 | the window size takes sixteen bytes |
| ChanRequests.ReadEncodedWinSize | cli-chansession.c:199-202 | the four values read back in the order columns, rows, pixel width, pixel height |
| ChanRequests.WinSizeOrDefault | cli-chansession.c:191-197 | the queried window size, or 25 rows, 80 columns and no pixels when the query fails; `PtyReqLayout` and `WindowChangeLayout` read it back from the requests |
| ChanRequests.TermOrDefault | cli-chansession.c:244-247 | the `TERM` variable, or "vt100" when it is unset; `PtyReqLayout` reads it back from "pty-req" |
| ChanRequests.ReportedModes | cli-chansession.c:124-129 | the modes of the table for the attributes read, and none when `tcgetattr` fails; `TermModesLength` proves the fallback bytes |
| ChanRequests.RequestHeader | cli-chansession.c:43-52 | the message number, the recipient and the request type; `ParseRequestMessage` reads them back |
| ChanRequests.TermModesString | cli-chansession.c:112-185 | the terminal modes take 5·k+5 bytes for k reported modes, and 5 when the attributes cannot be read |
| ChanRequests.TermModesLength | cli-chansession.c:124-182 | the four bytes at the start of the terminal modes hold the number of bytes after them; when the attributes cannot be read, the modes are exactly uint32 1 and TTY_OP_END |
| ChanRequests.ParseRequestMessage | cli-chansession.c:43-52 | a request read back gives the message number, the recipient channel and the request type, then want-reply FALSE and the request's data |
| ChanRequests.PtyReqMessage | cli-chansession.c:238-254 | the "pty-req" request; `PtyReqLayout` reads back each of its fields |
| ChanRequests.ShellReqMessage | cli-chansession.c:271-283 | "exec" with the command when one is configured, "shell" otherwise; `ShellReqLayout` reads it back |
| ChanRequests.WindowChangeMessage | cli-chansession.c:221-225 | the "window-change" request; `WindowChangeLayout` reads it back |
| ChanRequests.PtyReqLayout | cli-chansession.c:232-256 | "pty-req" reads back with the recipient and want-reply FALSE. It carries TERM, or "vt100" when unset. It carries the window size, or 80x25 with no pixels when the query fails. It ends with the table's modes, or none when the attributes cannot be read |
| ChanRequests.ShellReqLayout | cli-chansession.c:265-285 | the request reads back as "exec" with the command exactly when one is configured, and as "shell" with nothing after want-reply FALSE otherwise |
| ChanRequests.WindowChangeLayout | cli-chansession.c:219-226 | "window-change" reads back with the recipient, want-reply FALSE and the window size, or 80x25 with no pixels |
| Buffers.WriteInto | cli-chansession.c:180-181 | a write at pos leaves the length as the larger of the old end and pos plus the write; a write at the end appends |
| Buffers.WriteIntoPrefix | cli-chansession.c:180-181 | the bytes just written at a position read back from there |
| Buffers.WriteIntoPatch | cli-chansession.c:180-182 | writing over the start of an earlier write replaces only that start |
| Buffers.Buffer.PutBytes | cli-chansession.c:50 | the bytes are stored at pos, pos advances past them and len grows to pos if needed; the array still holds the written bytes |
| Buffers.Buffer.PutByte | cli-chansession.c:47 | `buf_putbyte` writes one byte at pos |
| Buffers.Buffer.PutInt | cli-chansession.c:48 | `buf_putint` writes the four big-endian bytes at pos |
| Buffers.Buffer.PutString | cli-chansession.c:50 | `buf_putstring` writes the length and then the bytes, as one write of the encoded string |
| Buffers.Buffer.SetPos | cli-chansession.c:180 | `buf_setpos` only moves the cursor, within the written bytes |
| Buffers.Buffer.Clear | cli-chansession.c:256 | after a packet is taken, the buffer is empty |
| ChanSession.IsSessionChannel | cli-chansession.c:219 | a channel is a recipient when it is not NULL and has the client session type |
| ChanSession.SessionRecipients | cli-chansession.c:217-219 | there are at most as many recipients as channels |
| ChanSession.SessionRecipientsEmpty | cli-chansession.c:217-229 | nothing is sent exactly when no channel is a session channel |
| ChanSession.SessionRecipientsMembers | cli-chansession.c:217-219 | every session channel is a recipient, and every recipient is a session channel's remote number |
| ChanSession.SessionRecipientsCount | cli-chansession.c:217-227 | there is one recipient per session channel, counted with multiplicity: two session channels with the same remote number give two requests |
| ChanSession.SessionRecipientsOrder | cli-chansession.c:217-227 | the session channel at index i is recipient number k, where k is the count of session channels before i, so recipients follow channel-index order |
| ChanSession.WindowChangeBatch | cli-chansession.c:217-227 | one request per recipient |
| ChanSession.WindowChangeBatchLayout | cli-chansession.c:217-227 | request k of the batch reads back as a window-change for recipient k |
| ChanSession.PatchPlaceholder | cli-chansession.c:180-182 | writing the length over the four-byte placeholder changes only those four bytes |
| ChanSession.PtyReqParts | cli-chansession.c:238-254 | "pty-req" is the header, the byte 0, the terminal type, the window size and the terminal modes, in that order |
| ChanSession.WindowChangeParts | cli-chansession.c:221-225 | "window-change" is the message number, the recipient, the type, the byte 0 and the window size, in that order |
| ChanSession.ClientSession.EncryptPacket | cli-chansession.c:256 | the payload is handed to the transport as one packet and the buffer is emptied |
| ChanSession.ClientSession.StartChannelRequest | cli-chansession.c:43-52 | appends the message number, the recipient channel and the request type |
| ChanSession.ClientSession.PutWinsize | cli-chansession.c:187-204 | appends columns, rows, pixel width and pixel height, or 80, 25, 0, 0 when the query fails |
| ChanSession.ClientSession.PutModeEntries | cli-chansession.c:135-173 | the loop appends the encoding of exactly the reported modes |
| ChanSession.ClientSession.PutTermcodes | cli-chansession.c:112-185 | appends the terminal modes with their length back-patched into the placeholder, and leaves the cursor at the end |
| ChanSession.ClientSession.PutPtyReq | cli-chansession.c:238-254 | the payload becomes the "pty-req" message |
| ChanSession.ClientSession.SendPtyReq | cli-chansession.c:232-263 | sends exactly the "pty-req" message, then installs the SIGWINCH handler; ok is false exactly when installing it fails |
| ChanSession.ClientSession.SendShellReq | cli-chansession.c:265-287 | sends exactly the "exec" or "shell" request |
| ChanSession.ClientSession.SigwinchHandler | cli-chansession.c:206-210 | the handler only sets the pending flag |
| ChanSession.ClientSession.WinChange | cli-chansession.c:212-230 | sends one window-change request per session channel, in channel-index order, then clears the pending flag. The payload must be empty and 39 bytes must fit only when some channel is a session channel. With none, the payload is left as it was and only the flag is cleared |
| ChanSession.ClientSession.TtySetup | cli-chansession.c:56-92 | does nothing when already raw. Unreadable attributes end the client. Otherwise it saves the attributes and passes their raw version to tcsetattr, and raw mode holds exactly when that succeeds |
| ChanSession.ClientSession.TtyCleanup | cli-chansession.c:94-110 | does nothing when not raw; otherwise restores the saved attributes, and clears the raw flag only when the restore succeeds |
| ChanSession.ClientSession.CloseChanSess | cli-chansession.c:32-41 | closing the channel restores the terminal as `cli_tty_cleanup` does |
| ChanSession.ClientSession.InitChanSess | cli-chansession.c:289-307 | the channel writes to standard output. The "pty-req" (when wanted) is sent before the shell or exec request, and raw mode comes last. A failed signal installation stops after the "pty-req" |

## Left out

- `cli-vpn-core.cpp` and `cli-vpn-core.h` are not part of this model. They hold descriptor I/O, address formatting and header checks whose helpers are not in this repository.
- `cli_send_chansess_request` (cli-chansession.c:309-321) is not modelled: it is channel-opening plumbing around `send_msg_channel_open_init`, which is not in this file.
- `buffer.h`, `packet.c` and `termcodes.c` are not part of this model. The buffer functions follow their documented behaviour: a write lands at the cursor, advances it and grows the length. `encrypt_packet` hands over the written bytes and empties the buffer. The termcodes table is a parameter of the methods, with `MAX_TERMCODE` as its length.
- The buffer-overflow exit inside `buf_put*` is a precondition that the message fits in the buffer. `buf_setpos`'s exit on a position past the end is its precondition.
- `CHECKCLEARTOWRITE` is the precondition `ClearToWrite()`: the payload buffer is empty. In `WinChange` it is required only when some channel is a session channel, as the check sits inside the loop.
- Logging (`dropbear_log`, `TRACE`) is not modelled, and neither is the channel count message of `cli_closechansess`.
- Flag and index constants take their Linux values. IUCLC and IEXTEN are taken as defined.
- The signal handler's asynchrony is not modelled. `winchange` is a plain field that `SigwinchHandler` sets.
- ChanSession.ClientSession.WinChange: one window-size query result serves every request of a call, so a resize during the loop is not modelled.
- ChanSession.ClientSession.PutTermcodes: requires the cursor at the end of the payload, which is where its only caller leaves it. The back-patch at an earlier position is modelled by `Buffer.SetPos` and `Buffer.PutInt` over `WriteInto`.
- ChanSession.ClientSession.PutModeEntries: requires the cursor at the end of the payload, as `PutTermcodes` leaves it.
- ChanSession.ClientSession.InitChanSess: ok false stands for `dropbear_exit`. Nothing after that point is modelled.
- The channel table is read-only here, a sequence of possibly null channels, since nothing in this file changes it. Channel fields other than the remote number, the type and `infd` are not modelled.
- `struct termios` keeps only the four flag words and `c_cc`. `c_line`, `c_ispeed` and `c_ospeed` are not modelled; raw mode copies them unchanged, and the saved copy restores them.
- Strings (`TERM`, the command) are byte sequences without the C terminator. Their length must fit a uint32.
- `cli_tty_cleanup` clears the raw flag only when the restore succeeds (cli-chansession.c:103-107). A reading in which the flag is cleared even after a failed restore does not match the code; the model follows the code.
