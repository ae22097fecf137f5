/**
 * The plugin's main window as a pipe endpoint: messages from the bard program
 * are either acted on at once, queued for the game thread, or dropped; the
 * queue is drained on every frame, one message at a time, with a failure in
 * one message logged and the rest still handled.
 */
module Windows {
  import opened Wrappers
  import opened Numeric
  import opened Text
  import opened Seqs
  import opened MessageEnums
  import opened PipeRouting
  import opened GameUi

  /** The sound channels a settings message addresses. */
  datatype SoundChannel = Master | Bgm | Effects | Voice | Ambient | System | Performance

  /** The channel of a `…SoundState` message type. */
  function StateChannel(t: MessageType): Option<SoundChannel> {
    match t
    case MasterSoundState => Some(Master)
    case BgmSoundState => Some(Bgm)
    case EffectsSoundState => Some(Effects)
    case VoiceSoundState => Some(Voice)
    case AmbientSoundState => Some(Ambient)
    case SystemSoundState => Some(System)
    case PerformanceSoundState => Some(Performance)
    case _ => Option.None
  }

  /** The channel of a `…Volume` message type. */
  function VolumeChannel(t: MessageType): Option<SoundChannel> {
    match t
    case MasterVolume => Some(Master)
    case BgmVolume => Some(Bgm)
    case EffectsVolume => Some(Effects)
    case VoiceVolume => Some(Voice)
    case AmbientVolume => Some(Ambient)
    case SystemVolume => Some(System)
    case PerformanceVolume => Some(Performance)
    case _ => Option.None
  }

  /**
   * A call the window makes into the rest of the plugin, the game or the pipe,
   * in the order it makes them. `ExceptionLogged` is the error the catch writes
   * to the plugin log.
   */
  datatype Action =
    | PlayNote(note: int16, on: bool)
    | GuitarSwitchTone(tone: int32)
    | PerformActionOnTick(id: uint32)
    | BeginReadyCheck
    | ConfirmBeginReadyCheck
    | ConfirmReceiveReadyCheck
    | InviteCharacter(invite: string)
    | AcceptInvites
    | PromoteCharacter(name: string)
    | EnterHouse
    | Teleport(showMenu: bool)
    | StopFollow
    | FollowCharacter(character: string, homeWorldId: uint16)
    | SetLowGfx(low: bool)
    | SetRenderSize(width: uint32, height: uint32)
    | SetSoundEnable(channel: SoundChannel, enabled: bool)
    | SetSoundVolume(channel: SoundChannel, volume: int16)
    | ReportVolume(channel: SoundChannel)
    | ReportSoundState(channel: SoundChannel)
    | SendChat(line: string)
    | CharacterLogout
    | ShutdownGame
    | KillProcess
    | ExceptionLogged

  /** How `pipeClient_MessageReceived` treats a message type. */
  function Classify(t: MessageType): Routing {
    match t
    case NoteOn => Immediate
    case NoteOff => Immediate
    case ProgramChange => Immediate
    case Instrument => Queued
    case StartEnsemble => Queued
    case AcceptReply => Queued
    case PartyInvite => Queued
    case PartyInviteAccept => Queued
    case PartyPromote => Queued
    case PartyEnterHouse => Queued
    case PartyTeleport => Queued
    case PartyFollow => Queued
    case SetGfx => Queued
    case SetWindowRenderSize => Queued
    case Chat => Queued
    case ClientLogout => Queued
    case GameShutdown => Queued
    case ExitGame => Queued
    case _ => if StateChannel(t).Some? || VolumeChannel(t).Some? then Queued else Dropped
  }

  /** The calls a message handled at once makes; a number that does not parse makes none. */
  function ImmediateCalls(m: PipeMessage): seq<Action> {
    match m.msgType
    case NoteOn => (match ParseInt16(m.message) case Some(n) => [PlayNote(n, true)] case None => [])
    case NoteOff => (match ParseInt16(m.message) case Some(n) => [PlayNote(n, false)] case None => [])
    case ProgramChange => (match ParseInt32(m.message) case Some(n) => [GuitarSwitchTone(n)] case None => [])
    case _ => []
  }

  /**
   * What every message's calls satisfy: the logged failure, if any, is the last
   * call, and no call stores a volume of -1.
   */
  predicate WellFormed(r: seq<Action>) {
    && (forall i :: 0 <= i < |r| && r[i] == ExceptionLogged ==> i == |r| - 1)
    && (forall i :: 0 <= i < |r| && r[i].SetSoundVolume? ==> r[i].volume != -1)
  }

  /** `Convert.ToBoolean` of the message: the calls made with it, or the logged failure. */
  function WithBool(s: string, k: bool -> Action): (r: seq<Action>)
    requires forall b :: !k(b).SetSoundVolume? && k(b) != ExceptionLogged
    ensures |r| == 1 && WellFormed(r)
    ensures ParseBool(s).Some? ==> r == [k(ParseBool(s).value)]
    ensures ParseBool(s).None? <==> r == [ExceptionLogged]
  {
    match ParseBool(s) case Some(b) => [k(b)] case None => [ExceptionLogged]
  }

  /** `Split(';')` into two `uint` fields, read left to right. */
  function RenderSize(s: string): (r: seq<Action>)
    ensures |r| == 1 && WellFormed(r)
    ensures r != [ExceptionLogged] <==>
      |Split(s, ';')| >= 2 && ParseUInt32(Split(s, ';')[0]).Some? && ParseUInt32(Split(s, ';')[1]).Some?
    ensures r != [ExceptionLogged] ==>
      r == [SetRenderSize(ParseUInt32(Split(s, ';')[0]).value, ParseUInt32(Split(s, ';')[1]).value)]
  {
    var parts := Split(s, ';');
    match ParseUInt32(parts[0])
    case None => [ExceptionLogged]
    case Some(w) =>
      if |parts| < 2 then [ExceptionLogged]
      else match ParseUInt32(parts[1])
        case None => [ExceptionLogged]
        case Some(h) => [SetRenderSize(w, h)]
  }

  /**
   * The volume rule: -1 asks for the channel's volume and state to be written
   * back to the pipe; any other 16-bit value is stored.
   */
  function VolumeCalls(ch: SoundChannel, s: string): (r: seq<Action>)
    ensures ParseInt16(s) == Some(-1) <==> r == [ReportVolume(ch), ReportSoundState(ch)]
    ensures ParseInt16(s).None? <==> r == [ExceptionLogged]
    ensures forall a :: a in r && a.SetSoundVolume? ==> a == SetSoundVolume(ch, ParseInt16(s).value) && a.volume != -1
    ensures r != [] && WellFormed(r)
  {
    match ParseInt16(s)
    case None => [ExceptionLogged]
    case Some(v) => if v == -1 then [ReportVolume(ch), ReportSoundState(ch)] else [SetSoundVolume(ch, v)]
  }

  /** The invite handler's own parse: a message that is not empty and not "name;world" throws. */
  function InviteCalls(s: string): (r: seq<Action>)
    ensures r != [] && WellFormed(r)
    ensures r[0] == InviteCharacter(s)
    ensures ExceptionLogged in r <==> s != "" && ParseCharacter(s).Failure?
  {
    [InviteCharacter(s)] + (if s != "" && ParseCharacter(s).Failure? then [ExceptionLogged] else [])
  }

  /** `PartyFollow`: empty stops following, otherwise "name;world" starts following that character. */
  function FollowCalls(s: string): (r: seq<Action>)
    ensures |r| == 1 && WellFormed(r)
    ensures r == [StopFollow] <==> s == ""
    ensures r == [ExceptionLogged] <==> s != "" && ParseCharacter(s).Failure?
    ensures s != "" && ParseCharacter(s).Success? ==>
      r == [FollowCharacter(ParseCharacter(s).value.0, ParseCharacter(s).value.1)]
  {
    if s == "" then [StopFollow]
    else match ParseCharacter(s)
      case Success(c) => [FollowCharacter(c.0, c.1)]
      case Failure(_) => [ExceptionLogged]
  }

  /** The calls of a sound-state or volume message. */
  function SoundCalls(m: PipeMessage): (r: seq<Action>)
    requires StateChannel(m.msgType).Some? || VolumeChannel(m.msgType).Some?
    ensures r != [] && WellFormed(r)
    ensures StateChannel(m.msgType).Some? && ParseBool(m.message).Some? ==>
      r == [SetSoundEnable(StateChannel(m.msgType).value, ParseBool(m.message).value)]
    ensures StateChannel(m.msgType).Some? && ParseBool(m.message).None? ==> r == [ExceptionLogged]
    ensures StateChannel(m.msgType).None? ==> r == VolumeCalls(VolumeChannel(m.msgType).value, m.message)
  {
    if StateChannel(m.msgType).Some? then
      WithBool(m.message, b => SetSoundEnable(StateChannel(m.msgType).value, b))
    else
      VolumeCalls(VolumeChannel(m.msgType).value, m.message)
  }

  predicate IsPartyMessage(t: MessageType) {
    t.PartyInvite? || t.PartyInviteAccept? || t.PartyPromote? || t.PartyEnterHouse? || t.PartyTeleport? || t.PartyFollow?
  }

  /** The calls of a party message: entering a house or teleporting stops following first. */
  function PartyCalls(m: PipeMessage): (r: seq<Action>)
    ensures WellFormed(r)
    ensures m.msgType == PartyEnterHouse || m.msgType == PartyTeleport ==> |r| >= 2 && r[0] == StopFollow
    ensures m.msgType == PartyInvite ==> r == InviteCalls(m.message)
    ensures m.msgType == PartyInviteAccept ==> r == [AcceptInvites]
    ensures m.msgType == PartyPromote ==> r == [PromoteCharacter(m.message)]
    ensures m.msgType == PartyEnterHouse ==> r == [StopFollow, EnterHouse]
    ensures m.msgType == PartyTeleport ==>
      r == [StopFollow] + if ParseBool(m.message).Some? then [Teleport(ParseBool(m.message).value)] else [ExceptionLogged]
    ensures m.msgType == PartyFollow ==> r == FollowCalls(m.message)
    ensures !IsPartyMessage(m.msgType) ==> r == []
  {
    match m.msgType
    case PartyInvite => InviteCalls(m.message)
    case PartyInviteAccept => [AcceptInvites]
    case PartyPromote => [PromoteCharacter(m.message)]
    case PartyEnterHouse => [StopFollow, EnterHouse]
    case PartyTeleport => [StopFollow] + WithBool(m.message, b => Teleport(b))
    case PartyFollow => FollowCalls(m.message)
    case _ => []
  }

  /** The calls of every other queued message. */
  function GameCalls(m: PipeMessage): (r: seq<Action>)
    ensures WellFormed(r)
    ensures m.msgType == Instrument ==>
      r == if ParseUInt32(m.message).Some? then [PerformActionOnTick(ParseUInt32(m.message).value)] else [ExceptionLogged]
    ensures m.msgType == StartEnsemble ==> r == [BeginReadyCheck, ConfirmBeginReadyCheck]
    ensures m.msgType == AcceptReply ==> r == [ConfirmReceiveReadyCheck]
    ensures m.msgType == SetGfx ==>
      r == if ParseBool(m.message).Some? then [SetLowGfx(ParseBool(m.message).value)] else [ExceptionLogged]
    ensures m.msgType == SetWindowRenderSize ==> r == RenderSize(m.message)
    ensures m.msgType == Chat ==> r == [SendChat(ChatLine(m.msgChannel, m.message))]
    ensures m.msgType == ClientLogout ==> r == [CharacterLogout]
    ensures m.msgType == GameShutdown ==> r == [ShutdownGame]
    ensures m.msgType == ExitGame ==> r == [KillProcess]
  {
    match m.msgType
    case Instrument => (match ParseUInt32(m.message) case Some(id) => [PerformActionOnTick(id)] case None => [ExceptionLogged])
    case StartEnsemble => [BeginReadyCheck, ConfirmBeginReadyCheck]
    case AcceptReply => [ConfirmReceiveReadyCheck]
    case SetGfx => WithBool(m.message, b => SetLowGfx(b))
    case SetWindowRenderSize => RenderSize(m.message)
    case Chat => [SendChat(ChatLine(m.msgChannel, m.message))]
    case ClientLogout => [CharacterLogout]
    case GameShutdown => [ShutdownGame]
    case ExitGame => [KillProcess]
    case _ => []
  }

  /** The calls `Update` makes for one dequeued message, ending with the logged error when a conversion throws. */
  function Dispatch(m: PipeMessage): seq<Action> {
    if StateChannel(m.msgType).Some? || VolumeChannel(m.msgType).Some? then SoundCalls(m)
    else if IsPartyMessage(m.msgType) then PartyCalls(m)
    else GameCalls(m)
  }

  /**
   * A failure is always the last thing a message does, no message stores a
   * volume of -1, and entering a house or teleporting stops following first.
   */
  lemma DispatchWellFormed(m: PipeMessage)
    ensures WellFormed(Dispatch(m))
    ensures m.msgType == PartyEnterHouse || m.msgType == PartyTeleport ==>
      |Dispatch(m)| >= 2 && Dispatch(m)[0] == StopFollow
  {
    if StateChannel(m.msgType).Some? || VolumeChannel(m.msgType).Some? {
      assert Dispatch(m) == SoundCalls(m);
    } else if IsPartyMessage(m.msgType) {
      assert Dispatch(m) == PartyCalls(m);
    } else {
      assert Dispatch(m) == GameCalls(m);
    }
  }

  /** Exactly the queued message types have a case in `Update`: nothing queued is silently skipped. */
  lemma QueuedExactlyHandled(m: PipeMessage)
    ensures Classify(m.msgType) == Queued <==> Dispatch(m) != []
  {
    if StateChannel(m.msgType).Some? {
      assert ParseBool(m.message).Some? || ParseBool(m.message).None?;
    }
  }

  /**
   * The calls of draining queue `q` when each message makes the calls `handle`
   * gives: every message in order, until `ExitGame` kills the process.
   */
  function Drain(q: seq<PipeMessage>, handle: PipeMessage -> seq<Action>): seq<Action>
    decreases |q|
  {
    if q == [] then []
    else handle(q[0]) + (if IsExit(q[0]) then [] else Drain(q[1..], handle))
  }

  /**
   * Draining is first-in first-out and isolates failures: the queue drains as
   * its parts drain one after the other, whatever any message before the
   * split did, as long as no `ExitGame` came first.
   */
  lemma {:induction false} DrainSplit(q1: seq<PipeMessage>, q2: seq<PipeMessage>, handle: PipeMessage -> seq<Action>)
    requires forall k :: 0 <= k < |q1| ==> !IsExit(q1[k])
    ensures Drain(q1 + q2, handle) == Drain(q1, handle) + Drain(q2, handle)
    decreases |q1|
  {
    if q1 == [] {
      assert q1 + q2 == q2;
    } else {
      assert !IsExit(q1[0]);
      assert (q1 + q2)[0] == q1[0];
      assert (q1 + q2)[1..] == q1[1..] + q2;
      DrainSplit(q1[1..], q2, handle);
    }
  }

  /** A drain makes no call that no single message makes. */
  lemma {:induction false} DrainCallsComeFromMessages(q: seq<PipeMessage>, handle: PipeMessage -> seq<Action>, a: Action)
    requires a in Drain(q, handle)
    ensures exists k :: 0 <= k < |q| && a in handle(q[k])
    decreases |q|
  {
    if a !in handle(q[0]) {
      DrainCallsComeFromMessages(q[1..], handle, a);
      var k :| 0 <= k < |q[1..]| && a in handle(q[1..][k]);
      assert a in handle(q[k + 1]);
    }
  }

  /** However many messages fail, draining never stores a volume of -1. */
  lemma DrainNeverStoresMinusOne(q: seq<PipeMessage>, a: Action)
    requires a in Drain(q, Dispatch) && a.SetSoundVolume?
    ensures a.volume != -1
  {
    DrainCallsComeFromMessages(q, Dispatch, a);
    var k :| 0 <= k < |q| && a in Dispatch(q[k]);
    DispatchWellFormed(q[k]);
    var d := Dispatch(q[k]);
    var i :| 0 <= i < |d| && d[i] == a;
  }

  /** A follow request written as "name;world" starts following that character; an empty one stops. */
  lemma FollowRequest(channel: int, name: string, world: uint16)
    requires ';' !in name
    ensures Dispatch(PipeMessage(PartyFollow, channel, name + ";" + FormatInteger(world as int)))
      == [FollowCharacter(name, world)]
    ensures Dispatch(PipeMessage(PartyFollow, channel, "")) == [StopFollow]
  {
    var text := name + ";" + FormatInteger(world as int);
    DispatchFollow(PipeMessage(PartyFollow, channel, text));
    DispatchFollow(PipeMessage(PartyFollow, channel, ""));
    CharacterRoundTrip(name, world);
  }

  /** A `PartyFollow` message makes the follow calls. */
  lemma DispatchFollow(m: PipeMessage)
    requires m.msgType == PartyFollow
    ensures Dispatch(m) == FollowCalls(m.message)
  {
    assert StateChannel(PartyFollow).None? && VolumeChannel(PartyFollow).None? && IsPartyMessage(PartyFollow);
  }

  /** Every message in the queue is one the router queues. */
  predicate AllQueued(q: seq<PipeMessage>) {
    forall k :: 0 <= k < |q| ==> Classify(q[k].msgType) == Queued
  }

  /** A suffix of a queue of queued messages holds only queued messages. */
  lemma AllQueuedSuffix(q: seq<PipeMessage>, i: nat)
    requires AllQueued(q) && i <= |q|
    ensures AllQueued(q[i..])
  {
    forall k | 0 <= k < |q[i..]|
      ensures Classify(q[i..][k].msgType) == Queued
    {
      assert q[i..][k] == q[i + k];
    }
  }

  /**
   * One step of the dequeue loop keeps `calls` followed by the drain of the
   * rest equal to the drain of the whole queue; at an `ExitGame` the calls are
   * complete.
   */
  lemma DrainStep(q: seq<PipeMessage>, i: nat, calls: seq<Action>, handle: PipeMessage -> seq<Action>)
    requires i < |q| && calls + Drain(q[i..], handle) == Drain(q, handle)
    ensures !IsExit(q[i]) ==> (calls + handle(q[i])) + Drain(q[i + 1..], handle) == Drain(q, handle)
    ensures IsExit(q[i]) ==> calls + handle(q[i]) == Drain(q, handle)
  {
    var tail := if IsExit(q[i]) then [] else Drain(q[i + 1..], handle);
    SuffixCons(q, i);
    DrainOfCons(q[i], q[i + 1..], handle);
    ConcatAssoc(calls, handle(q[i]), tail);
  }

  /** Draining a queue that starts with `m`: `m`'s calls, then, unless `m` is `ExitGame`, the rest's. */
  lemma DrainOfCons(m: PipeMessage, rest: seq<PipeMessage>, handle: PipeMessage -> seq<Action>)
    ensures Drain([m] + rest, handle) == handle(m) + (if IsExit(m) then [] else Drain(rest, handle))
  {
    assert ([m] + rest)[0] == m;
    assert ([m] + rest)[1..] == rest;
  }

  /**
   * The calls of a drain, message by message up to and including the first
   * `ExitGame`, and whether one was met.
   */
  method DrainCalls(q: seq<PipeMessage>, handle: PipeMessage -> seq<Action>) returns (calls: seq<Action>, killed: bool)
    ensures calls == Drain(q, handle)
    ensures killed <==> FirstIndex(q, IsExit).Some?
  {
    var i := 0;
    calls := [];
    while i < |q| && !IsExit(q[i])
      invariant i <= |q|
      invariant forall k :: 0 <= k < i ==> !IsExit(q[k])
      invariant calls + Drain(q[i..], handle) == Drain(q, handle)
      decreases |q| - i
    {
      DrainStep(q, i, calls, handle);
      calls := calls + handle(q[i]);
      i := i + 1;
    }
    killed := i < |q|;
    if killed {
      ExitFound(q, i);
      DrainStep(q, i, calls, handle);
      calls := calls + handle(q[i]);
    } else {
      assert calls + [] == calls;
    }
  }

  /** The window's state: the reconnect flags, the queue and everything it has done. */
  class MainWindow {
    var autoConnect: bool
    var link: Link
    var queue: seq<PipeMessage>
    var log: seq<Action>
    var requests: seq<PipeRequest>
    var exited: bool

    predicate Valid()
      reads this
    {
      AllQueued(queue)
    }

    constructor (autoConnect: bool)
      ensures Valid()
      ensures link == Initial(autoConnect) && this.autoConnect == autoConnect
      ensures queue == [] && log == [] && requests == [] && !exited
    {
      this.autoConnect := autoConnect;
      link := Initial(autoConnect);
      queue := [];
      log := [];
      requests := [];
      exited := false;
    }

    /** The AutoConnect checkbox of the connection tab. */
    method SetAutoConnect(value: bool)
      modifies this
      ensures autoConnect == value
      ensures link == old(link) && queue == old(queue) && log == old(log) && requests == old(requests)
      ensures exited == old(exited)
    {
      autoConnect := value;
    }

    /**
     * `pipeClient_MessageReceived`: a null message and a `Version` message do
     * nothing; notes and tone changes are played at once; the types `Update`
     * handles are queued; every other type is dropped.
     */
    method MessageReceived(msg: Option<PipeMessage>)
      requires Valid()
      modifies this
      ensures Valid()
      ensures msg.None? || Classify(msg.value.msgType) == Dropped ==> queue == old(queue) && log == old(log)
      ensures msg.Some? && Classify(msg.value.msgType) == Queued ==>
        queue == old(queue) + [msg.value] && log == old(log)
      ensures msg.Some? && Classify(msg.value.msgType) == Immediate ==>
        queue == old(queue) && log == old(log) + ImmediateCalls(msg.value)
      ensures link == old(link) && requests == old(requests)
      ensures autoConnect == old(autoConnect) && exited == old(exited)
    {
      if msg.None? {
        return;
      }
      var m := msg.value;
      match Classify(m.msgType) {
        case Immediate =>
          log := log + ImmediateCalls(m);
        case Queued =>
          queue := queue + [m];
        case Dropped =>
      }
    }

    /**
     * `Update`: dequeues until the queue is empty, making each message's calls
     * in order; a failing message is logged and the next one is handled.
     * `ExitGame` kills the process, so the messages behind it stay queued.
     */
    method Update()
      requires Valid()
      modifies this
      ensures Valid()
      ensures log == old(log) + Drain(old(queue), Dispatch)
      ensures exited <==> old(exited) || FirstIndex(old(queue), IsExit).Some?
      ensures queue == Remaining(old(queue))
      ensures link == old(link) && requests == old(requests) && autoConnect == old(autoConnect)
    {
      var q := queue;
      var calls, killed := DrainCalls(q, Dispatch);
      var rest := Remaining(q);
      AllQueuedSuffix(q, |q| - |rest|);
      queue, log, exited := rest, log + calls, exited || killed;
    }

    /** `reconnectTimer_Elapsed`, against the pipe client as it is at that moment. */
    method ReconnectTimerElapsed(client: Option<Client>)
      modifies this
      ensures link == Tick(old(link), client).0
      ensures requests == old(requests) + Tick(old(link), client).1
      ensures queue == old(queue) && log == old(log) && autoConnect == old(autoConnect) && exited == old(exited)
    {
      if link.manuallyDisconnected {
        return;
      }
      if client.Some? {
        if client.value.isConnected {
          link := link.(timerEnabled := false);
          return;
        }
        if !client.value.isConnecting {
          requests := requests + [ConnectAsync];
        }
      }
    }

    /** `pipeClient_Disconnected`. */
    method PipeClientDisconnected()
      modifies this
      ensures link == OnDisconnected(old(link), autoConnect)
      ensures queue == old(queue) && log == old(log) && requests == old(requests)
      ensures autoConnect == old(autoConnect) && exited == old(exited)
    {
      if !autoConnect {
        return;
      }
      link := link.(timerInterval := ReconnectInterval, timerEnabled := autoConnect);
    }

    /** The Connect button of the connection tab. */
    method Connect()
      modifies this
      ensures link == ConnectButton(old(link), autoConnect)
      ensures queue == old(queue) && log == old(log) && requests == old(requests)
      ensures autoConnect == old(autoConnect) && exited == old(exited)
    {
      if autoConnect {
        link := link.(manuallyDisconnected := false);
      }
      link := link.(timerInterval := ConnectInterval, timerEnabled := true);
    }

    /** The Disconnect button of the connection tab. */
    method Disconnect(client: Option<Client>)
      modifies this
      ensures link == DisconnectButton(old(link), client).0
      ensures requests == old(requests) + DisconnectButton(old(link), client).1
      ensures queue == old(queue) && log == old(log)
      ensures autoConnect == old(autoConnect) && exited == old(exited)
    {
      if client.Some? && !client.value.isConnected {
        return;
      }
      if client.Some? {
        requests := requests + [DisconnectAsync];
      }
      link := link.(manuallyDisconnected := true);
    }

    /** `Dispose`: the window counts as manually disconnected and disconnects the client it has. */
    method Dispose(client: Option<Client>)
      modifies this
      ensures link == old(link).(manuallyDisconnected := true)
      ensures Tick(link, client) == (link, [])
      ensures requests == old(requests) + (if client.Some? then [DisconnectAsync] else [])
      ensures queue == old(queue) && log == old(log)
    {
      link := link.(manuallyDisconnected := true);
      if client.Some? {
        requests := requests + [DisconnectAsync];
      }
    }
  }
}
