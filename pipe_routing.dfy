/**
 * What the two plugin windows share about the pipe to the bard program: the
 * message record, the chat line a `Chat` message becomes, and the flags that
 * decide when the window reconnects.
 */
module PipeRouting {
  import opened Wrappers
  import opened Seqs
  import opened MessageEnums

  /** A message on the pipe (`IpcMessage` / `PayloadMessage`): its type, a channel number and its text. */
  datatype PipeMessage = PipeMessage(msgType: MessageType, msgChannel: int, message: string)

  /** How a window treats a received message: at once, queued for its next frame, or not at all. */
  datatype Routing = Immediate | Queued | Dropped

  /** `ExitGame` kills the process: nothing queued behind it is handled. */
  predicate IsExit(m: PipeMessage) {
    m.msgType == ExitGame
  }

  /** The first `ExitGame` of a queue is the one at `k` when none comes before it. */
  lemma ExitFound(q: seq<PipeMessage>, k: nat)
    requires k < |q| && IsExit(q[k])
    requires forall j :: 0 <= j < k ==> !IsExit(q[j])
    ensures FirstIndex(q, IsExit) == Some(k)
  {
  }

  /** The messages still queued after a drain: those behind the first `ExitGame`, or none. */
  function Remaining(q: seq<PipeMessage>): (r: seq<PipeMessage>)
    ensures |r| <= |q| && r == q[|q| - |r|..]
    ensures r != [] ==> FirstIndex(q, IsExit).Some?
  {
    match FirstIndex(q, IsExit)
    case Some(k) => q[k + 1..]
    case None => []
  }

  /**
   * The line a `Chat` message is sent as: the text itself on the None channel,
   * otherwise the channel's shortcut, a space and the text.
   */
  function ChatLine(channelCode: int, text: string): (r: string)
    ensures |text| <= |r| && r[|r| - |text|..] == text
    ensures r == text <==> ParseByChannelCode(channelCode) == NoneChannel
    ensures r != text ==> r[..|r| - |text|] == ParseByChannelCode(channelCode).channelShortCut + " "
  {
    var channel := ParseByChannelCode(channelCode);
    if channel == NoneChannel then text else channel.channelShortCut + " " + text
  }

  /** A party message goes out as a `/p` command; a code outside the table sends the bare text. */
  lemma ChatLineExamples(text: string)
    ensures ChatLine(0x0E, text) == "/p " + text
    ensures ChatLine(0x0A, text) == "/s " + text
    ensures ChatLine(0x07, text) == text
  {
    ParseIsUnique(0x0E, 4);
    ParseIsUnique(0x0A, 1);
    UnknownCodeIsNone(0x07);
  }

  // ---------------------------------------------------------------------------
  // Reconnecting
  // ---------------------------------------------------------------------------

  /** The pipe client's connection state, when the pipe has a client at all. */
  datatype Client = Client(isConnected: bool, isConnecting: bool)

  /** A request the window makes of the pipe client. */
  datatype PipeRequest = ConnectAsync | DisconnectAsync

  /** The `ManuallyDisconnected` flag and the reconnect timer's `Enabled` and `Interval`. */
  datatype Link = Link(manuallyDisconnected: bool, timerEnabled: bool, timerInterval: nat)

  /** The interval, in milliseconds, of the timer while it waits for the program to come back. */
  const ReconnectInterval: nat := 2000

  /** The interval, in milliseconds, the Connect button sets. */
  const ConnectInterval: nat := 500

  /** The flags of a freshly constructed window: the timer runs when AutoConnect is on. */
  function Initial(autoConnect: bool): (l: Link)
    ensures !l.manuallyDisconnected && l.timerInterval == ReconnectInterval
    ensures l.timerEnabled <==> autoConnect
  {
    Link(false, autoConnect, ReconnectInterval)
  }

  /**
   * `reconnectTimer_Elapsed`: nothing after a manual disconnect; once connected
   * the timer stops; a client that is neither connected nor connecting is asked
   * to connect. Nothing else changes.
   */
  function Tick(l: Link, client: Option<Client>): (r: (Link, seq<PipeRequest>))
    ensures l.manuallyDisconnected ==> r == (l, [])
    ensures r.1 == [ConnectAsync] <==>
      !l.manuallyDisconnected && client.Some? && !client.value.isConnected && !client.value.isConnecting
    ensures r.1 == [] || r.1 == [ConnectAsync]
    ensures r.0.manuallyDisconnected == l.manuallyDisconnected && r.0.timerInterval == l.timerInterval
    ensures r.0.timerEnabled <==> l.timerEnabled && (l.manuallyDisconnected || client.None? || !client.value.isConnected)
  {
    if l.manuallyDisconnected then (l, [])
    else match client
      case Some(c) =>
        if c.isConnected then (l.(timerEnabled := false), [])
        else if !c.isConnecting then (l, [ConnectAsync])
        else (l, [])
      case None => (l, [])
  }

  /**
   * The Connect button: the timer restarts at the short interval; the manual
   * flag is cleared only when AutoConnect is on.
   */
  function ConnectButton(l: Link, autoConnect: bool): (r: Link)
    ensures r.timerEnabled && r.timerInterval == ConnectInterval
    ensures r.manuallyDisconnected <==> l.manuallyDisconnected && !autoConnect
  {
    Link(if autoConnect then false else l.manuallyDisconnected, true, ConnectInterval)
  }

  /**
   * The Disconnect button: a client known to be disconnected changes nothing;
   * otherwise the client (if any) is disconnected and the manual flag is set.
   */
  function DisconnectButton(l: Link, client: Option<Client>): (r: (Link, seq<PipeRequest>))
    ensures client.Some? && !client.value.isConnected ==> r == (l, [])
    ensures client.None? || client.value.isConnected ==> r.0 == l.(manuallyDisconnected := true)
    ensures r.1 == (if client.Some? && client.value.isConnected then [DisconnectAsync] else [])
  {
    if client.Some? && !client.value.isConnected then (l, [])
    else (l.(manuallyDisconnected := true), if client.Some? then [DisconnectAsync] else [])
  }

  /** `pipeClient_Disconnected`: with AutoConnect on, the timer restarts at the long interval. */
  function OnDisconnected(l: Link, autoConnect: bool): (r: Link)
    ensures !autoConnect ==> r == l
    ensures autoConnect ==> r == l.(timerEnabled := true, timerInterval := ReconnectInterval)
  {
    if !autoConnect then l else l.(timerEnabled := autoConnect, timerInterval := ReconnectInterval)
  }

  /** The events that move the flags. */
  datatype LinkEvent =
    | TimerElapsed(client: Option<Client>)
    | ConnectPressed(autoConnect: bool)
    | DisconnectPressed(client: Option<Client>)
    | PipeDisconnected(autoConnect: bool)

  function Handle(l: Link, e: LinkEvent): (Link, seq<PipeRequest>) {
    match e
    case TimerElapsed(c) => Tick(l, c)
    case ConnectPressed(a) => (ConnectButton(l, a), [])
    case DisconnectPressed(c) => DisconnectButton(l, c)
    case PipeDisconnected(a) => (OnDisconnected(l, a), [])
  }

  /** The flags after a run of events, and every request made along the way. */
  function Run(l: Link, events: seq<LinkEvent>): (Link, seq<PipeRequest>)
    decreases |events|
  {
    if events == [] then (l, [])
    else
      var first := Handle(l, events[0]);
      var rest := Run(first.0, events[1..]);
      (rest.0, first.1 + rest.1)
  }

  /**
   * After a manual disconnect the window never asks to connect again, whatever
   * the timer, the pipe or the Disconnect button do, until Connect is pressed
   * with AutoConnect on.
   */
  lemma {:induction false} NoReconnectAfterManualDisconnect(l: Link, events: seq<LinkEvent>)
    requires l.manuallyDisconnected
    requires forall k :: 0 <= k < |events| ==> events[k] != ConnectPressed(true)
    ensures Run(l, events).0.manuallyDisconnected
    ensures ConnectAsync !in Run(l, events).1
    decreases |events|
  {
    if events != [] {
      var first := Handle(l, events[0]);
      assert first.0.manuallyDisconnected && ConnectAsync !in first.1;
      NoReconnectAfterManualDisconnect(first.0, events[1..]);
    }
  }

  /** Pressing Connect with AutoConnect on lets the next tick connect an idle client. */
  lemma ConnectThenTickConnects(l: Link)
    ensures Run(l, [ConnectPressed(true), TimerElapsed(Some(Client(false, false)))]).1 == [ConnectAsync]
  {
  }
}
