# pingpoke dashboard core, in Dafny

`poker.py` is a terminal dashboard. It probes a fixed list of servers every few
seconds and shows each one's latency and packet loss in a table that is repainted
in place. It also shows the local VPN status.

This project models the deterministic part of that program:

- **The rolling probe history** (`ping_history`). Each server keeps a list of
  outcome bits, 1 for an answered probe and 0 for a timeout. Every cycle appends
  one bit, and the oldest bit is dropped once the list is longer than
  `ROLLING_WINDOW` (50). Packet loss is `100 * (1 - sum / len)` of that list.
  `Dashboard.Monitor` is a class whose `history` field is the host-to-bits map.
  `Record` updates one host in place. `Cycle` is one pass of `for host in servers`.
  `Run` is finitely many turns of `while True`. Loss is an exact `real`.
- **The latency cell** (`format_ping`). A latency is a `nat` in hundredths of a
  millisecond, the precision `get_ping` rounds to. That lets the `:.2f` text be
  written out exactly. The colour is a datatype. The field is the text
  left-justified to the column width. It is proved that the cell can be read back
  to the probe result, so distinct results never show the same cell.
- **The frame** and the screen it is drawn on. A frame is the clock line, the VPN
  line, the header, the separator and one row per server. `Screen` models the
  terminal line by line: the cursor-up escape, then `print` of each line. It is
  proved that the frame overwrites the previous one exactly, with the cursor back
  below it, if and only if the frame has `lines_to_move` lines. Every frame has
  that many lines.

Modules: `Wrappers` (Option), `PingFormat`, `RollingWindow`, `Screen`, `Dashboard`.

The probe results, the clock text and the VPN query result are the inputs of each
cycle (`Dashboard.CycleInput`). The window size is a constructor parameter of the
monitor (`ROLLING_WINDOW` is the program's value), so small windows can be stated
as examples.

The program is sequential: it probes one server after another inside the loop.
The model follows that code. It does not model a concurrent probe scheduler. The
program also starts with any server list, including an empty one, and the model
accepts that too.

## Model

| member | source | states |
|---|---|---|
| PingFormat.PadRight | poker.py:67 | the field is max(len(text), width) long, starts with the text and is filled out with spaces only; it never truncates |
| PingFormat.ReadShowLatency | poker.py:68 | the two-decimal `ms` text of a latency reads back as the same latency |
| PingFormat.ColourOf | poker.py:65-74 | exactly one class: gray iff timeout; green iff below 100 ms; yellow iff 100 ms up to below 200 ms; red iff 200 ms or more |
| PingFormat.FormatPing | poker.py:63-74 | the cell has the colour of its class, and its field is the latency text or "Timeout" padded on the right to the width |
| PingFormat.ReadFormatPing | poker.py:63-74 | every cell format_ping produces, at any width, reads back as the probe result it was made from |
| PingFormat.FormatPingInjective | poker.py:63-74 | two probe results with the same cell are the same result |
| PingFormat.ColourMonotone | poker.py:69-74 | a larger latency never gets a milder colour |
| PingFormat.AlignedField | poker.py:34 | at the default width of 16, the timeout and every latency below 10^10 ms fill exactly 16 characters, in all four branches |
| RollingWindow.OutcomeBit | poker.py:116 | the appended bit is 1 exactly when the probe returned a latency and 0 exactly when it timed out |
| RollingWindow.Push | poker.py:116-118 | a history within the window stays within it; below the window the bit is appended; at the window the first element is dropped, then the bit is appended; 0/1 entries stay 0/1 |
| RollingWindow.PushAllKeepsLatest | poker.py:114-118 | after any run of updates, the history is the most recent `window` outcomes of the old history followed by the run (FIFO eviction) |
| RollingWindow.SumPlusFailures | poker.py:119 | for a 0/1 history, the answered count plus the timeout count is the length |
| RollingWindow.LossIsFailureShare | poker.py:119 | for a non-empty 0/1 history, loss is 100 times the number of timeouts over the length, and lies in [0, 100] |
| RollingWindow.AllAnsweredNoLoss | poker.py:119 | a history of only answered probes shows 0% loss |
| RollingWindow.AllTimedOutFullLoss | poker.py:119 | a history of only timeouts shows 100% loss |
| RollingWindow.WindowOfThreeHostA | poker.py:114-118 | with a window of 3, the outcomes 1, 0, 1, 0 give histories [1], [1,0], [1,0,1], [0,1,0] |
| RollingWindow.WindowOfThreeHostB | poker.py:114-118 | with a window of 3, the outcomes 0, 1, 1, 1 give histories [0], [0,1], [0,1,1], [1,1,1] |
| RollingWindow.WindowOfThreeLosses | poker.py:119 | the losses of those histories: 0% and 100%, then 50% each, then one third each, then, after the eviction in cycle 4, two thirds and 0% |
| Dashboard.VpnStatus | poker.py:107 | green CONNECTED iff the VPN is up, red DISCONNECTED iff it is down |
| Dashboard.FrameOf | poker.py:101-122 | a frame is the clock line, the VPN line, the header, the separator, then exactly the server rows in order |
| Dashboard.FrameFitsCursorMove | poker.py:94 | a frame with one row per server has exactly `lines_to_move` = 4 + number of servers lines |
| Dashboard.RecordNext | poker.py:114-122 | recording server i and printing its row extends "the first i servers recorded, the rest untouched" to i + 1 |
| Dashboard.TracksAdvance | poker.py:100-118 | one more cycle pushes each server's bit of that cycle onto its history |
| Dashboard.TracksLatest | poker.py:100-118 | at the end of a run, each history is the latest `window` outcomes of its start followed by that server's outcomes in the run |
| Dashboard.Monitor.constructor | poker.py:36 | every configured server starts with an empty history, and no other key exists |
| Dashboard.Monitor.Record | poker.py:116-119 | only this host's history changes, by exactly one windowed push; the loss returned is the loss of the new history, in [0, 100]; the invariants (window bound, 0/1 entries, keys are the servers) are kept |
| Dashboard.Monitor.Cycle | poker.py:100-122 | every server's history is pushed exactly once with its own bit; the frame has `lines_to_move` lines; its row i shows server i's cell and its loss after its own push, in configuration order |
| Dashboard.Monitor.Tick | poker.py:101-122 | one iteration on the terminal: every server's history is pushed once with its own bit; the frame is the clock, the VPN status, the header, the separator, then row i with server i's cell and its loss after its own push; the screen afterwards holds exactly that frame, `lines_to_move` lines, with the cursor below it |
| Dashboard.RunAdvance | poker.py:100-124 | after one more cycle, the histories track one more outcome each, the frame just printed shows that cycle against the histories of the cycles before it, and it is the one on screen |
| Dashboard.Monitor.Run | poker.py:94-124 | one frame per cycle; frame k is the clock and VPN status of cycle k, the header, the separator, then row i with server i's cell in cycle k and the loss of its starting history with its outcomes of cycles 0..k pushed on, in configuration order; each history ends as the latest `window` outcomes; the screen shows the last frame with the cursor below it, or the reserved blank lines when no cycle ran |
| Screen.PrintLinesEffect | poker.py:97 | printing k lines from the cursor replaces the next k screen lines, extending the screen if needed, and moves the cursor down k |
| Screen.ReserveLeavesCursorBelow | poker.py:96-97 | the blank lines printed before the loop leave n blank lines with the cursor below them |
| Screen.FrameExactlyOverwrites | poker.py:101-122 | with n lines on screen and the cursor below them, moving up n and printing a frame reproduces the frame exactly, cursor below it, iff the frame has n lines |
| Screen.FrameOverwrites | poker.py:101-122 | the "if" direction of FrameExactlyOverwrites |

## Left out

- `get_ping` (poker.py:39-47): the probe goes through the `ping3` library over the network. Only its result shape, a latency or nothing, is modelled, as a cycle input.
- `round(response, 2)` (poker.py:45): floating point; latencies are exact hundredths of a millisecond instead.
- `get_ip_location` (poker.py:50-60) and the startup loop that calls it (poker.py:91-92): DNS and an HTTP service. Each server's location is given as a string.
- `vpn_connected` (poker.py:77-88): runs `ifconfig` in a subprocess. Its boolean result is a cycle input.
- ANSI colour and cursor escapes, clear-to-end-of-line, and the column layout of the header and rows (poker.py:103, 108, 111-112, 122): the model keeps lines as structured values. The screen is modelled line by line, not character by character: printing a line replaces the whole line, which is what `print` does after `\033[K`. The separator (poker.py:112) and the server rows (poker.py:122) are printed without `\033[K`, so a real terminal overwrites only as many characters as the new line has. The screen model has no width and no viewport: it neither wraps long lines nor scrolls, which is why Screen.FrameExactlyOverwrites needs no condition on the terminal. On a real terminal an exact overwrite needs more:
  - each of those lines keeps a fixed visible width from cycle to cycle (the padded fields; PingFormat.AlignedField for the latency cell);
  - the terminal is at least 89 columns wide, the width of the header and of every server row (30 + 1 + 25 + 1 + 16 + 1 + 15 at poker.py:111 and 122). On a narrower terminal those lines wrap, a frame covers more terminal lines than `lines_to_move`, and the cursor-up at poker.py:101 lands inside the previous frame;
  - the window has at least `lines_to_move` + 1 rows; otherwise the frame scrolls and the overwrite breaks in the same way.

  The model states none of these character-level facts.
- The `:.1f` text of the packet loss (poker.py:121): floating-point formatting; the loss is kept as an exact real.
- `time.strftime` and `time.sleep` (poker.py:102, 124): the clock text is a cycle input, and time is not modelled.
- `while True` (poker.py:100) and the `KeyboardInterrupt` exit (poker.py:126-127): `Run` covers any finite number of cycles; signal handling is not modelled.
- Dashboard.Monitor.Cycle: the order in which hosts are updated is not recorded as a separate trace. It shows only through the frame, where row i carries server i's loss after server i's own update.
- Dashboard.Monitor.Record takes the window as a monitor parameter, which must be at least 1. The program's value is `ROLLING_WINDOW` = 50.
