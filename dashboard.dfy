/**
  The monitoring loop of poker.py: a fixed, ordered list of servers, a probe history
  per server, and the frame drawn each cycle. Probe results, the clock and the VPN
  interface query are the program's contact with the outside world; here they are
  the inputs of each cycle.
 */
module Dashboard {
  import opened Wrappers
  import opened PingFormat
  import opened RollingWindow
  import opened Screen

  /** A configured server with the location resolved once at startup. */
  datatype Server = Server(name: string, location: string)

  /** One printed line of a frame, as structured data. */
  datatype Line =
    | Blank
    | ClockLine(systemTime: string)
    | VpnLine(status: Cell)
    | HeaderLine
    | SeparatorLine
    | ServerLine(host: string, location: string, ping: Cell, loss: real)

  /** What one iteration of the loop learns from the outside world. */
  datatype CycleInput = CycleInput(systemTime: string, vpnUp: bool, pings: seq<Option<Latency>>)

  /** Server names are keys of a dictionary in the configuration, hence distinct. */
  predicate DistinctNames(servers: seq<Server>)
  {
    forall i, j :: 0 <= i < j < |servers| ==> servers[i].name != servers[j].name
  }

  /** The configured names: exactly the keys of `ping_history`. */
  function NameSet(servers: seq<Server>): (r: set<string>)
    ensures forall i :: 0 <= i < |servers| ==> servers[i].name in r
    ensures forall n :: n in r ==> exists i :: 0 <= i < |servers| && servers[i].name == n
  {
    set s | s in servers :: s.name
  }

  /** `lines_to_move = 2 + 1 + 1 + len(servers)` (poker.py:94). */
  function LinesToMove(servers: seq<Server>): nat
  {
    2 + 1 + 1 + |servers|
  }

  /** The VPN status text (poker.py:107): green CONNECTED or red DISCONNECTED. */
  function VpnStatus(connected: bool): (r: Cell)
    ensures r.colour == Green <==> connected
    ensures r.colour == Red <==> !connected
    ensures r.field == "CONNECTED" <==> connected
    ensures r.field == "DISCONNECTED" <==> !connected
  {
    if connected then Cell(Green, "CONNECTED") else Cell(Red, "DISCONNECTED")
  }

  /** The row printed for one server (poker.py:120-122). */
  function ServerRow(s: Server, ping: Option<Latency>, loss: real): Line
  {
    ServerLine(s.name, s.location, FormatPing(ping, PING_COLUMN_WIDTH), loss)
  }

  /** A frame: clock, VPN status, header, separator, then the server rows in order. */
  function FrameOf(systemTime: string, vpnUp: bool, rows: seq<Line>): (f: seq<Line>)
    ensures |f| == 4 + |rows| && f[4..] == rows
    ensures f[0] == ClockLine(systemTime) && f[1] == VpnLine(VpnStatus(vpnUp))
    ensures f[2] == HeaderLine && f[3] == SeparatorLine
  {
    [ClockLine(systemTime), VpnLine(VpnStatus(vpnUp)), HeaderLine, SeparatorLine] + rows
  }

  /** A frame with one row per server moves the cursor up exactly as many lines as it prints. */
  lemma FrameFitsCursorMove(servers: seq<Server>, systemTime: string, vpnUp: bool, rows: seq<Line>)
    requires |rows| == |servers|
    ensures |FrameOf(systemTime, vpnUp, rows)| == LinesToMove(servers)
  {
  }

  /** The outcome bits of server i over the first n cycles of a run, oldest first. */
  function Column(cycles: seq<CycleInput>, n: nat, i: nat): (bits: seq<int>)
    requires n <= |cycles|
    requires forall k :: 0 <= k < |cycles| ==> i < |cycles[k].pings|
    ensures |bits| == n && IsBits(bits)
    ensures forall k :: 0 <= k < n ==> bits[k] == OutcomeBit(cycles[k].pings[i])
  {
    seq(n, k requires 0 <= k < n => OutcomeBit(cycles[k].pings[i]))
  }

  /** The row a server gets when its history before this cycle was `before`. */
  function RowAfter(s: Server, before: seq<int>, ping: Option<Latency>, window: nat): Line
    requires window > 0
  {
    ServerRow(s, ping, LossPercent(Push(before, OutcomeBit(ping), window)))
  }

  /** Partway through a cycle: the first n servers have been recorded, the others not yet. */
  ghost predicate RecordedUpTo(start: map<string, seq<int>>, now: map<string, seq<int>>, servers: seq<Server>,
                               pings: seq<Option<Latency>>, n: nat, window: nat)
  {
    && n <= |servers| == |pings|
    && (forall j :: 0 <= j < |servers| ==> servers[j].name in start && servers[j].name in now)
    && (forall j :: 0 <= j < n ==>
          now[servers[j].name] == Push(start[servers[j].name], OutcomeBit(pings[j]), window))
    && (forall j :: n <= j < |servers| ==> now[servers[j].name] == start[servers[j].name])
  }

  /** The rows printed so far in a cycle, one per recorded server, in configuration order. */
  ghost predicate RowsSoFar(rows: seq<Line>, start: map<string, seq<int>>, servers: seq<Server>,
                            pings: seq<Option<Latency>>, window: nat)
  {
    && window > 0
    && |rows| <= |servers| == |pings|
    && forall j :: 0 <= j < |rows| ==>
         && servers[j].name in start
         && rows[j] == RowAfter(servers[j], start[servers[j].name], pings[j], window)
  }

  lemma RecordNext(start: map<string, seq<int>>, before: map<string, seq<int>>, servers: seq<Server>,
                   pings: seq<Option<Latency>>, i: nat, window: nat, rows: seq<Line>, loss: real)
    requires DistinctNames(servers) && i < |servers|
    requires RecordedUpTo(start, before, servers, pings, i, window)
    requires RowsSoFar(rows, start, servers, pings, window) && |rows| == i
    requires loss == LossPercent(Push(before[servers[i].name], OutcomeBit(pings[i]), window))
    ensures
      var name := servers[i].name;
      var after := before[name := Push(before[name], OutcomeBit(pings[i]), window)];
      && RecordedUpTo(start, after, servers, pings, i + 1, window)
      && RowsSoFar(rows + [ServerRow(servers[i], pings[i], loss)], start, servers, pings, window)
  {
    var name := servers[i].name;
    var after := before[name := Push(before[name], OutcomeBit(pings[i]), window)];
    forall j | 0 <= j < |servers| && j != i
      ensures after[servers[j].name] == before[servers[j].name]
    {
      assert servers[j].name != name;
    }
  }

  /** One whole cycle: every server's history has had that server's outcome bit pushed onto it. */
  ghost predicate Stepped(before: map<string, seq<int>>, after: map<string, seq<int>>, servers: seq<Server>,
                          pings: seq<Option<Latency>>, window: nat)
  {
    && |pings| == |servers|
    && forall i :: 0 <= i < |servers| ==>
         && servers[i].name in before && servers[i].name in after
         && after[servers[i].name] == Push(before[servers[i].name], OutcomeBit(pings[i]), window)
  }

  /**
    After the first n cycles of a run, every server's history is its history at the
    start of the run with that server's outcome bits of those cycles pushed onto it.
   */
  ghost predicate Tracks(start: map<string, seq<int>>, now: map<string, seq<int>>, servers: seq<Server>,
                         cycles: seq<CycleInput>, n: nat, window: nat)
  {
    && n <= |cycles|
    && (forall k :: 0 <= k < |cycles| ==> |cycles[k].pings| == |servers|)
    && forall i :: 0 <= i < |servers| ==>
         && servers[i].name in start && servers[i].name in now
         && now[servers[i].name] == PushAll(start[servers[i].name], Column(cycles, n, i), window)
  }

  /** One more cycle extends every server's run of outcomes by that cycle's bit. */
  lemma TracksAdvance(start: map<string, seq<int>>, before: map<string, seq<int>>,
                      after: map<string, seq<int>>, servers: seq<Server>,
                      cycles: seq<CycleInput>, k: nat, window: nat)
    requires k < |cycles| && Tracks(start, before, servers, cycles, k, window)
    requires Stepped(before, after, servers, cycles[k].pings, window)
    ensures Tracks(start, after, servers, cycles, k + 1, window)
  {
    forall i | 0 <= i < |servers|
      ensures after[servers[i].name] == PushAll(start[servers[i].name], Column(cycles, k + 1, i), window)
    {
      var bit := OutcomeBit(cycles[k].pings[i]);
      assert Column(cycles, k + 1, i) == Column(cycles, k, i) + [bit];
      PushAllSnoc(start[servers[i].name], Column(cycles, k, i), bit, window);
    }
  }

  /** At the end of a run, each history holds the latest `window` outcomes. */
  lemma TracksLatest(start: map<string, seq<int>>, now: map<string, seq<int>>, servers: seq<Server>,
                     cycles: seq<CycleInput>, window: nat)
    requires Tracks(start, now, servers, cycles, |cycles|, window)
    requires forall i :: 0 <= i < |servers| ==> |start[servers[i].name]| <= window
    ensures forall i :: 0 <= i < |servers| ==>
      now[servers[i].name] == Window(start[servers[i].name] + Column(cycles, |cycles|, i), window)
  {
    forall i | 0 <= i < |servers|
      ensures now[servers[i].name] == Window(start[servers[i].name] + Column(cycles, |cycles|, i), window)
    {
      PushAllKeepsLatest(start[servers[i].name], Column(cycles, |cycles|, i), window);
    }
  }

  /**
    The frame printed for one cycle: clock, VPN status, header and separator, then
    one row per server in configuration order, each showing that server's latency
    cell and its packet loss after this cycle's outcome was recorded.
   */
  ghost predicate FrameShows(frame: seq<Line>, input: CycleInput, servers: seq<Server>,
                             start: map<string, seq<int>>, window: nat)
  {
    && window > 0
    && |frame| == LinesToMove(servers) && |input.pings| == |servers|
    && frame[0] == ClockLine(input.systemTime) && frame[1] == VpnLine(VpnStatus(input.vpnUp))
    && frame[2] == HeaderLine && frame[3] == SeparatorLine
    && forall i :: 0 <= i < |servers| ==>
         servers[i].name in start
         && frame[4 + i] == RowAfter(servers[i], start[servers[i].name], input.pings[i], window)
  }

  /**
    Frame j of a run that started from the histories `start`: what FrameShows says
    of cycle j, where each server's history before cycle j is its starting history
    with its outcomes of the first j cycles pushed onto it.
   */
  ghost predicate ShowsCycle(frame: seq<Line>, servers: seq<Server>, start: map<string, seq<int>>,
                             cycles: seq<CycleInput>, j: nat, window: nat)
  {
    && window > 0 && j < |cycles|
    && (forall k :: 0 <= k < |cycles| ==> |cycles[k].pings| == |servers|)
    && |frame| == LinesToMove(servers)
    && frame[0] == ClockLine(cycles[j].systemTime) && frame[1] == VpnLine(VpnStatus(cycles[j].vpnUp))
    && frame[2] == HeaderLine && frame[3] == SeparatorLine
    && forall i :: 0 <= i < |servers| ==>
         servers[i].name in start
         && frame[4 + i] == RowAfter(servers[i], PushAll(start[servers[i].name], Column(cycles, j, i), window),
                                     cycles[j].pings[i], window)
  }

  /**
    The terminal after a run that printed `frames`, each n lines long: n lines with
    the cursor below them, showing the last frame, or the blank lines reserved before
    the loop when there was none.
   */
  ghost predicate ShowsLast(screen: Terminal<Line>, frames: seq<seq<Line>>, n: nat)
  {
    && screen.cursor == |screen.rows| == n
    && (frames == [] ==> screen.rows == Repeat(n, Blank))
    && (frames != [] ==> screen.rows == frames[|frames| - 1])
  }

  /** After the first k cycles of a run: the histories, the frames printed so far and the screen. */
  ghost predicate RunSoFar(start: map<string, seq<int>>, now: map<string, seq<int>>, servers: seq<Server>,
                           cycles: seq<CycleInput>, k: nat, window: nat,
                           frames: seq<seq<Line>>, screen: Terminal<Line>)
  {
    && Tracks(start, now, servers, cycles, k, window)
    && |frames| == k
    && (forall j :: 0 <= j < k ==> ShowsCycle(frames[j], servers, start, cycles, j, window))
    && ShowsLast(screen, frames, LinesToMove(servers))
  }

  lemma RunStarts(start: map<string, seq<int>>, servers: seq<Server>, cycles: seq<CycleInput>, window: nat)
    requires forall i :: 0 <= i < |servers| ==> servers[i].name in start
    requires forall k :: 0 <= k < |cycles| ==> |cycles[k].pings| == |servers|
    ensures RunSoFar(start, start, servers, cycles, 0, window, [], Reserve(LinesToMove(servers), Blank))
  {
    ReserveLeavesCursorBelow(LinesToMove(servers), Blank);
  }

  /** Cycle k moves the histories one step and its frame becomes the one on screen. */
  lemma RunAdvance(start: map<string, seq<int>>, before: map<string, seq<int>>, after: map<string, seq<int>>,
                   servers: seq<Server>, cycles: seq<CycleInput>, k: nat, window: nat,
                   frames: seq<seq<Line>>, screen: Terminal<Line>, frame: seq<Line>, next: Terminal<Line>)
    requires k < |cycles| && RunSoFar(start, before, servers, cycles, k, window, frames, screen)
    requires Stepped(before, after, servers, cycles[k].pings, window)
    requires FrameShows(frame, cycles[k], servers, before, window)
    requires next == Terminal(frame, LinesToMove(servers))
    ensures RunSoFar(start, after, servers, cycles, k + 1, window, frames + [frame], next)
  {
    TracksAdvance(start, before, after, servers, cycles, k, window);
    assert ShowsCycle(frame, servers, start, cycles, k, window);
  }

  /** The state poker.py keeps across cycles: its servers and `ping_history`. */
  class Monitor {
    const servers: seq<Server>
    const window: nat
    var history: map<string, seq<int>>

    ghost predicate Valid()
      reads this
    {
      && DistinctNames(servers)
      && window > 0
      && history.Keys == NameSet(servers)
      && forall h :: h in history ==> |history[h]| <= window && IsBits(history[h])
    }

    /** `ping_history = {host: [] for host in servers}` (poker.py:36). */
    constructor (servers: seq<Server>, window: nat)
      requires DistinctNames(servers) && window > 0
      ensures Valid()
      ensures this.servers == servers && this.window == window
      ensures forall h :: h in history ==> history[h] == []
    {
      this.servers := servers;
      this.window := window;
      history := map h | h in NameSet(servers) :: [];
    }

    /** Record one probe outcome for a server and return its packet loss (poker.py:116-119). */
    method Record(host: string, ping: Option<Latency>) returns (loss: real)
      requires Valid() && host in history
      modifies this
      ensures Valid()
      ensures history == old(history)[host := Push(old(history)[host], OutcomeBit(ping), window)]
      ensures |history[host]| > 0 && loss == LossPercent(history[host])
      ensures 0.0 <= loss <= 100.0
    {
      var h := history[host] + [OutcomeBit(ping)];
      if |h| > window {
        h := h[1..];
      }
      history := history[host := h];
      loss := 100.0 * (1.0 - Sum(h) as real / |h| as real);
      LossIsFailureShare(h);
    }

    /** One iteration of the loop body (poker.py:101-122): returns the frame it prints. */
    method Cycle(input: CycleInput) returns (frame: seq<Line>)
      requires Valid() && |input.pings| == |servers|
      modifies this
      ensures Valid()
      ensures Stepped(old(history), history, servers, input.pings, window)
      ensures |frame| == LinesToMove(servers)
      ensures FrameShows(frame, input, servers, old(history), window)
    {
      var rows: seq<Line> := [];
      var i := 0;
      while i < |servers|
        invariant 0 <= i <= |servers|
        invariant Valid()
        invariant RecordedUpTo(old(history), history, servers, input.pings, i, window)
        invariant RowsSoFar(rows, old(history), servers, input.pings, window) && |rows| == i
      {
        var server := servers[i];
        ghost var before := history;
        var loss := Record(server.name, input.pings[i]);
        RecordNext(old(history), before, servers, input.pings, i, window, rows, loss);
        rows := rows + [ServerRow(server, input.pings[i], loss)];
        i := i + 1;
      }
      frame := FrameOf(input.systemTime, input.vpnUp, rows);
    }

    /**
      One whole iteration of `while True` on the terminal (poker.py:101-122): move the
      cursor up `lines_to_move` lines, run the cycle and print its frame over the
      previous one.
     */
    method Tick(input: CycleInput, screen: Terminal<Line>) returns (frame: seq<Line>, next: Terminal<Line>)
      requires Valid() && |input.pings| == |servers|
      requires screen.cursor == |screen.rows| == LinesToMove(servers)
      modifies this
      ensures Valid()
      ensures Stepped(old(history), history, servers, input.pings, window)
      ensures FrameShows(frame, input, servers, old(history), window)
      ensures next == Terminal(frame, LinesToMove(servers))
    {
      frame := Cycle(input);
      FrameOverwrites(screen, LinesToMove(servers), frame);
      next := ShowFrame(screen, LinesToMove(servers), frame);
    }

    /**
      Finitely many iterations of `while True` (poker.py:96-124): reserve the frame's
      lines once, then run each cycle and draw its frame over the previous one.
     */
    method Run(cycles: seq<CycleInput>) returns (frames: seq<seq<Line>>, screen: Terminal<Line>)
      requires Valid()
      requires forall k :: 0 <= k < |cycles| ==> |cycles[k].pings| == |servers|
      modifies this
      ensures Valid()
      ensures |frames| == |cycles|
      ensures forall k :: 0 <= k < |frames| ==> ShowsCycle(frames[k], servers, old(history), cycles, k, window)
      ensures forall i :: 0 <= i < |servers| ==>
        history[servers[i].name] == Window(old(history)[servers[i].name] + Column(cycles, |cycles|, i), window)
      ensures ShowsLast(screen, frames, LinesToMove(servers))
    {
      screen := Reserve(LinesToMove(servers), Blank);
      RunStarts(history, servers, cycles, window);
      frames := [];
      var k := 0;
      while k < |cycles|
        invariant k <= |cycles| && Valid()
        invariant RunSoFar(old(history), history, servers, cycles, k, window, frames, screen)
      {
        ghost var before := history;
        var frame, next := Tick(cycles[k], screen);
        RunAdvance(old(history), before, history, servers, cycles, k, window, frames, screen, frame, next);
        frames, screen := frames + [frame], next;
        k := k + 1;
      }
      TracksLatest(old(history), history, servers, cycles, window);
    }
  }
}
