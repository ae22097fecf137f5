/** The message types of the pipe protocol and the chat-channel table. */
module MessageEnums {
  import opened Wrappers

  datatype MessageType =
    | None | Handshake | Version | NameAndHomeWorld
    | Instrument | NoteOn | NoteOff | ProgramChange
    | StartEnsemble | AcceptReply | PerformanceModeState
    | PartyInvite | PartyInviteAccept | PartyPromote | PartyEnterHouse
    | SetGfx
    | MasterSoundState | MasterVolume | BgmSoundState | BgmVolume
    | EffectsSoundState | EffectsVolume | VoiceSoundState | VoiceVolume
    | AmbientSoundState | AmbientVolume | SystemSoundState | SystemVolume
    | PerformanceSoundState | PerformanceVolume
    | Chat | NetworkPacket | ExitGame
      // Members the message router uses that this version of the enum does not declare.
    | PartyTeleport | PartyFollow | SetWindowRenderSize | ClientLogout | GameShutdown

  /** The numeric value of a declared member; None for the undeclared ones. */
  function Code(t: MessageType): Option<nat> {
    match t
    case None => Some(0)
    case Handshake => Some(1)
    case Version => Some(2)
    case NameAndHomeWorld => Some(5)
    case Instrument => Some(20)
    case NoteOn => Some(21)
    case NoteOff => Some(22)
    case ProgramChange => Some(23)
    case StartEnsemble => Some(30)
    case AcceptReply => Some(31)
    case PerformanceModeState => Some(32)
    case PartyInvite => Some(40)
    case PartyInviteAccept => Some(41)
    case PartyPromote => Some(42)
    case PartyEnterHouse => Some(43)
    case SetGfx => Some(50)
    case MasterSoundState => Some(60)
    case MasterVolume => Some(61)
    case BgmSoundState => Some(62)
    case BgmVolume => Some(63)
    case EffectsSoundState => Some(64)
    case EffectsVolume => Some(65)
    case VoiceSoundState => Some(66)
    case VoiceVolume => Some(67)
    case AmbientSoundState => Some(68)
    case AmbientVolume => Some(69)
    case SystemSoundState => Some(70)
    case SystemVolume => Some(71)
    case PerformanceSoundState => Some(72)
    case PerformanceVolume => Some(73)
    case Chat => Some(85)
    case NetworkPacket => Some(90)
    case ExitGame => Some(100)
    case PartyTeleport => Option.None
    case PartyFollow => Option.None
    case SetWindowRenderSize => Option.None
    case ClientLogout => Option.None
    case GameShutdown => Option.None
  }

  /** The declared member with numeric value `n`, if any (how a received number is read back). */
  function FromCode(n: nat): (r: Option<MessageType>)
    ensures r.Some? ==> Code(r.value) == Some(n)
  {
    if n == 0 then Some(MessageType.None)
    else if n == 1 then Some(Handshake)
    else if n == 2 then Some(Version)
    else if n == 5 then Some(NameAndHomeWorld)
    else if n == 20 then Some(Instrument)
    else if n == 21 then Some(NoteOn)
    else if n == 22 then Some(NoteOff)
    else if n == 23 then Some(ProgramChange)
    else if n == 30 then Some(StartEnsemble)
    else if n == 31 then Some(AcceptReply)
    else if n == 32 then Some(PerformanceModeState)
    else if n == 40 then Some(PartyInvite)
    else if n == 41 then Some(PartyInviteAccept)
    else if n == 42 then Some(PartyPromote)
    else if n == 43 then Some(PartyEnterHouse)
    else if n == 50 then Some(SetGfx)
    else if 60 <= n <= 73 then Some(SoundMember(n))
    else if n == 85 then Some(Chat)
    else if n == 90 then Some(NetworkPacket)
    else if n == 100 then Some(ExitGame)
    else Option.None
  }

  function SoundMember(n: nat): MessageType
    requires 60 <= n <= 73
  {
    [MasterSoundState, MasterVolume, BgmSoundState, BgmVolume, EffectsSoundState, EffectsVolume,
     VoiceSoundState, VoiceVolume, AmbientSoundState, AmbientVolume, SystemSoundState, SystemVolume,
     PerformanceSoundState, PerformanceVolume][n - 60]
  }

  /** Every declared member is read back from its own number. */
  lemma CodeRoundTrip(t: MessageType)
    ensures Code(t).Some? ==> FromCode(Code(t).value) == Some(t)
  {
  }

  /** No two declared members share a numeric value. */
  lemma {:induction false} CodesDistinct(a: MessageType, b: MessageType)
    requires Code(a).Some? && Code(a) == Code(b)
    ensures a == b
  {
    CodeRoundTrip(a);
    CodeRoundTrip(b);
  }

  // ---------------------------------------------------------------------------
  // Chat channels
  // ---------------------------------------------------------------------------

  datatype ChatMessageChannelType = ChatMessageChannelType(
    name: string,
    channelCode: int,
    channelShortCut: string)

  const NoneChannel := ChatMessageChannelType("None", 0x0000, "")
  const Say := ChatMessageChannelType("Say", 0x000A, "/s")
  const Yell := ChatMessageChannelType("Yell", 0x001E, "/y")
  const Shout := ChatMessageChannelType("Shout", 0x000B, "/sh")
  const Party := ChatMessageChannelType("Party", 0x000E, "/p")
  const FreeCompany := ChatMessageChannelType("Free Company", 0x0018, "/fc")

  const All: seq<ChatMessageChannelType> := [NoneChannel, Say, Yell, Shout, Party, FreeCompany]

  /** `All.First(x => x.ChannelCode == code)` when `All.Any(...)` holds. */
  function FirstWithCode(table: seq<ChatMessageChannelType>, code: int): (r: Option<ChatMessageChannelType>)
    ensures r.Some? ==> r.value in table && r.value.channelCode == code
    ensures r.None? <==> forall k :: 0 <= k < |table| ==> table[k].channelCode != code
  {
    if table == [] then Option.None
    else if table[0].channelCode == code then Some(table[0])
    else FirstWithCode(table[1..], code)
  }

  /** `TryParseByChannelCode`: whether a table entry has the code, and the entry (None otherwise). */
  function TryParseByChannelCode(channelCode: int): (r: (bool, ChatMessageChannelType))
    ensures r.0 <==> exists k :: 0 <= k < |All| && All[k].channelCode == channelCode
    ensures r.0 ==> r.1 in All && r.1.channelCode == channelCode
    ensures !r.0 ==> r.1 == NoneChannel
  {
    match FirstWithCode(All, channelCode)
    case Some(c) => (true, c)
    case None => (false, NoneChannel)
  }

  /** `ParseByChannelCode`: total, the matching entry or the None channel. */
  function ParseByChannelCode(channelCode: int): (r: ChatMessageChannelType)
    ensures r in All
    ensures r.channelCode == channelCode || r == NoneChannel
  {
    TryParseByChannelCode(channelCode).1
  }

  predicate CodesPairwiseDistinct(table: seq<ChatMessageChannelType>) {
    forall i, j :: 0 <= i < j < |table| ==> table[i].channelCode != table[j].channelCode
  }

  /** The channel codes of the table are distinct, so the entry found is the only one with that code. */
  lemma ParseIsUnique(channelCode: int, k: nat)
    requires k < |All| && All[k].channelCode == channelCode
    ensures CodesPairwiseDistinct(All)
    ensures ParseByChannelCode(channelCode) == All[k]
  {
  }

  /** A code outside the table gives the None channel, whose shortcut is empty. */
  lemma UnknownCodeIsNone(channelCode: int)
    requires channelCode !in {0x00, 0x0A, 0x1E, 0x0B, 0x0E, 0x18}
    ensures ParseByChannelCode(channelCode) == NoneChannel
    ensures ParseByChannelCode(channelCode).channelShortCut == ""
  {
  }

  /** The named channels and their chat command shortcuts. */
  lemma NamedChannels()
    ensures ParseByChannelCode(0x0A).channelShortCut == "/s"
    ensures ParseByChannelCode(0x1E).channelShortCut == "/y"
    ensures ParseByChannelCode(0x0B).channelShortCut == "/sh"
    ensures ParseByChannelCode(0x0E).channelShortCut == "/p"
    ensures ParseByChannelCode(0x18).channelShortCut == "/fc"
  {
    ParseIsUnique(0x0A, 1);
    ParseIsUnique(0x1E, 2);
    ParseIsUnique(0x0B, 3);
    ParseIsUnique(0x0E, 4);
    ParseIsUnique(0x18, 5);
  }
}
