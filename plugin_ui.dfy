/**
 * The plugin's older window, `PluginUi`: the same pipe endpoint as the main
 * window, with ten queued message types whose graphics and sound settings act
 * on the game's settings stores, drained on every frame.
 */
module PluginWindow {
  import opened Wrappers
  import opened Numeric
  import opened Text
  import opened Seqs
  import opened MessageEnums
  import opened PipeRouting
  import opened GameSettings

  /**
   * How `pipeClient_MessageReceived` treats a message type: `Version` and the
   * note and tone messages are acted on at once, ten types are queued, every
   * other type is dropped.
   */
  function Classify(t: MessageType): Routing {
    match t
    case Version => Immediate
    case NoteOn => Immediate
    case NoteOff => Immediate
    case ProgramChange => Immediate
    case Chat => Queued
    case Instrument => Queued
    case AcceptReply => Queued
    case SetGfx => Queued
    case MasterSoundState => Queued
    case MasterVolume => Queued
    case VoiceSoundState => Queued
    case EffectsSoundState => Queued
    case StartEnsemble => Queued
    case ExitGame => Queued
    case _ => Dropped
  }

  /**
   * A call the window makes into the rest of the plugin, the game or the pipe,
   * in the order it makes them. `WriteVolume` and `WriteState` are the
   * `Pipe.Write` replies; `ExceptionLogged` is the error the catch writes to
   * the plugin log and `OutOfDateLogged` the version error.
   */
  datatype Call =
    | PlayNote(note: int16, on: bool)
    | GuitarSwitchTone(tone: int32)
    | SendChat(line: string)
    | PerformAction(id: uint32)
    | ConfirmReceiveReadyCheck
    | BeginReadyCheck
    | ConfirmBeginReadyCheck
    | ApplyGraphicSettings
    | WriteVolume(volume: int32)
    | WriteState(msgType: MessageType, enabled: bool)
    | KillProcess
    | ExceptionLogged
    | OutOfDateLogged

  /**
   * The calls of a note or tone message, made as soon as it arrives; a text
   * that does not convert throws out of the handler and makes none.
   */
  function ImmediateCalls(m: PipeMessage): (r: seq<Call>)
    ensures |r| <= 1
    ensures m.msgType == NoteOn && ParseInt16(m.message).Some? ==> r == [PlayNote(ParseInt16(m.message).value, true)]
    ensures m.msgType == NoteOff && ParseInt16(m.message).Some? ==> r == [PlayNote(ParseInt16(m.message).value, false)]
    ensures m.msgType == ProgramChange && ParseInt32(m.message).Some? ==> r == [GuitarSwitchTone(ParseInt32(m.message).value)]
    ensures r != [] <==> ((m.msgType == NoteOn || m.msgType == NoteOff) && ParseInt16(m.message).Some?)
                         || (m.msgType == ProgramChange && ParseInt32(m.message).Some?)
  {
    if m.msgType == NoteOn || m.msgType == NoteOff then
      match ParseInt16(m.message)
      case Some(note) => [PlayNote(note, m.msgType == NoteOn)]
      case None => []
    else if m.msgType == ProgramChange then
      match ParseInt32(m.message)
      case Some(tone) => [GuitarSwitchTone(tone)]
      case None => []
    else []
  }

  // ---------------------------------------------------------------------------
  // The settings the queued messages act on
  // ---------------------------------------------------------------------------

  /**
   * What the queued messages read and write: the common system config entries,
   * which hold the graphics settings and the sound settings alike, the snapshot
   * table (None when there is no `CustomTable`) and whether the host has a
   * `GameConfig`, through which the sound entries are read and written.
   */
  datatype Settings = Settings(entries: map<ConfigOption, uint32>, snapshot: Option<VarTableValues>, hasConfig: bool)

  /** Every entry the snapshot table refers to exists. */
  predicate SettingsValid(s: Settings) {
    HasTableEntries(s.entries)
  }

  /** `Get…SoundEnable`: the stored flag, false without a config or an entry. */
  function Flag(s: Settings, option: SystemConfigOption): bool {
    s.hasConfig && StoredFlag(s.entries, option)
  }

  /** `GetMasterSoundVolume`: the stored volume, -1 without a config or an entry. */
  function Volume(s: Settings): int32 {
    if s.hasConfig then StoredVolume(s.entries) else -1
  }

  /** `Set…SoundEnable`: stores the negated flag in the option's entry; without a config nothing happens. */
  function WithFlag(s: Settings, option: SystemConfigOption, enabled: bool): Settings {
    if s.hasConfig then s.(entries := s.entries[EntryOf(option) := FlagValue(!enabled)]) else s
  }

  /** `SetMasterSoundVolume`: stores the volume as `uint`; without a config nothing happens. */
  function WithVolume(s: Settings, volume: int16): Settings {
    if s.hasConfig then s.(entries := s.entries[ConfigOption.SoundMaster := ToUInt32(volume)]) else s
  }

  /** Every entry the snapshot table refers to is still there and keeps its value. */
  predicate TableEntriesKept(before: map<ConfigOption, uint32>, after: map<ConfigOption, uint32>) {
    forall f :: OptionOf(f) in before ==> OptionOf(f) in after && after[OptionOf(f)] == before[OptionOf(f)]
  }

  /**
   * A flag reads back negated after it is set, and setting one flag leaves the
   * others and the volume alone. Only the master flag is an entry of the
   * snapshot table: setting another one keeps every table entry.
   */
  lemma FlagAfterSet(s: Settings, option: SystemConfigOption, other: SystemConfigOption, enabled: bool)
    ensures Flag(WithFlag(s, option, enabled), option) == (s.hasConfig && !enabled)
    ensures other != option ==> Flag(WithFlag(s, option, enabled), other) == Flag(s, other)
    ensures option != SystemConfigOption.SoundMaster ==> Volume(WithFlag(s, option, enabled)) == Volume(s)
    ensures SettingsValid(s) ==> SettingsValid(WithFlag(s, option, enabled))
    ensures option != SystemConfigOption.IsSndMaster ==> TableEntriesKept(s.entries, WithFlag(s, option, enabled).entries)
  {
    EntryOfInjective(option, other);
    forall f
      ensures OptionOf(f) != EntryOf(option) || option == SystemConfigOption.IsSndMaster
    {
      FieldOfOptionOf(f);
    }
  }

  /** A volume reads back as itself after it is set; setting it leaves the flags and the table entries alone. */
  lemma VolumeAfterSet(s: Settings, volume: int16, option: SystemConfigOption)
    requires option != SystemConfigOption.SoundMaster
    ensures Volume(WithVolume(s, volume)) == (if s.hasConfig then volume else -1)
    ensures Flag(WithVolume(s, volume), option) == Flag(s, option)
    ensures SettingsValid(s) ==> SettingsValid(WithVolume(s, volume))
    ensures TableEntriesKept(s.entries, WithVolume(s, volume).entries)
  {
    Int16ThroughUInt32(volume);
    EntryOfInjective(option, SystemConfigOption.SoundMaster);
    forall f
      ensures OptionOf(f) != ConfigOption.SoundMaster
    {
      FieldOfOptionOf(f);
    }
  }

  /** The four `Pipe.Write` replies to a volume query: the master volume, then the master, voice and effects flags. */
  function Report(s: Settings): seq<Call> {
    [ WriteVolume(Volume(s)),
      WriteState(MasterSoundState, Flag(s, SystemConfigOption.IsSndMaster)),
      WriteState(VoiceSoundState, Flag(s, SystemConfigOption.IsSndVoice)),
      WriteState(EffectsSoundState, Flag(s, SystemConfigOption.IsSndSe)) ]
  }

  // ---------------------------------------------------------------------------
  // One queued message
  // ---------------------------------------------------------------------------

  /**
   * `SetGfx`, once its text is read: true snapshots the entries into the table
   * (when there is one) and applies the minimal preset; false writes the table
   * back, the master-sound flag included. Either way the game is asked to apply
   * its graphics settings; a text that is not a boolean throws and the error is
   * logged.
   */
  function GfxApply(s: Settings, low: Option<bool>): (r: (Settings, seq<Call>))
    requires SettingsValid(s)
    ensures SettingsValid(r.0) && r.0.hasConfig == s.hasConfig && (r.0.snapshot.Some? <==> s.snapshot.Some?)
  {
    match low
    case None => (s, [ExceptionLogged])
    case Some(true) => (Lowered(s), [ApplyGraphicSettings])
    case Some(false) => (Restored(s), [ApplyGraphicSettings])
  }

  /** `GetSettings` into the table, when there is one, then `SetMinimalGfx`. */
  function Lowered(s: Settings): (r: Settings)
    requires SettingsValid(s)
    ensures SettingsValid(r) && r.hasConfig == s.hasConfig && (r.snapshot.Some? <==> s.snapshot.Some?)
  {
    var snapshot := if s.snapshot.Some? then Some(Capture(s.entries)) else Option.None;
    s.(entries := Minimal(s.entries), snapshot := snapshot)
  }

  /** `RestoreSettings` from the table, when there is one. */
  function Restored(s: Settings): (r: Settings)
    requires SettingsValid(s)
    ensures SettingsValid(r) && r.hasConfig == s.hasConfig && r.snapshot == s.snapshot
    ensures s.snapshot.None? ==> r == s
  {
    match s.snapshot
    case None => s
    case Some(t) => s.(entries := Restore(s.entries, t))
  }

  /**
   * What `SetGfx` does to the sound settings: lowering keeps them all;
   * restoring rewrites the master-sound flag to the one the table holds and
   * keeps the other flags and the volume.
   */
  lemma GfxApplySound(s: Settings, low: Option<bool>)
    requires SettingsValid(s)
    ensures Volume(GfxApply(s, low).0) == Volume(s)
    ensures forall o :: o != SystemConfigOption.IsSndMaster ==> Flag(GfxApply(s, low).0, o) == Flag(s, o)
    ensures low != Some(false) || s.snapshot.None? ==>
      Flag(GfxApply(s, low).0, SystemConfigOption.IsSndMaster) == Flag(s, SystemConfigOption.IsSndMaster)
    ensures low == Some(false) && s.snapshot.Some? ==>
      Flag(GfxApply(s, low).0, SystemConfigOption.IsSndMaster) == (s.hasConfig && s.snapshot.value.soundEnabled != 0)
    ensures GfxApply(s, low).1 == if low.Some? then [ApplyGraphicSettings] else [ExceptionLogged]
  {
    match low
    case None =>
    case Some(true) => MinimalKeepsSound(s.entries);
    case Some(false) =>
      if s.snapshot.Some? {
        RestoreSetsMasterFlag(s.entries, s.snapshot.value);
      }
  }

  /**
   * A `…SoundState` message, once its text is read: sets the flag of `option`.
   */
  function StateApply(s: Settings, enabled: Option<bool>, option: SystemConfigOption): (r: (Settings, seq<Call>))
    ensures r.0.snapshot == s.snapshot && r.0.hasConfig == s.hasConfig
    ensures SettingsValid(s) ==> SettingsValid(r.0)
  {
    match enabled
    case None => (s, [ExceptionLogged])
    case Some(b) => (WithFlag(s, option, b), [])
  }

  /**
   * What a `…SoundState` message does: the option's flag reads back negated and
   * every other flag stays. The master flag is the snapshot table's
   * `SoundEnabled` entry, so the next snapshot captures it; any other flag
   * leaves every table entry alone. A text that is not a boolean is logged.
   */
  lemma StateApplySound(s: Settings, enabled: Option<bool>, option: SystemConfigOption)
    ensures enabled.None? ==> StateApply(s, enabled, option) == (s, [ExceptionLogged])
    ensures enabled.Some? ==>
      StateApply(s, enabled, option).1 == [] && Flag(StateApply(s, enabled, option).0, option) == (s.hasConfig && !enabled.value)
    ensures forall o :: o != option ==> Flag(StateApply(s, enabled, option).0, o) == Flag(s, o)
    ensures option != SystemConfigOption.SoundMaster ==> Volume(StateApply(s, enabled, option).0) == Volume(s)
    ensures option != SystemConfigOption.IsSndMaster ==> TableEntriesKept(s.entries, StateApply(s, enabled, option).0.entries)
    ensures option == SystemConfigOption.IsSndMaster && enabled.Some? && s.hasConfig && SettingsValid(s) ==>
      Capture(StateApply(s, enabled, option).0.entries).soundEnabled == FlagValue(!enabled.value)
  {
    if enabled.Some? {
      var b := enabled.value;
      FlagAfterSet(s, option, option, b);
      forall o | o != option
        ensures Flag(WithFlag(s, option, b), o) == Flag(s, o)
      {
        FlagAfterSet(s, option, o, b);
      }
    }
  }

  /** `MasterVolume`, once its text is read: -1 asks for the four replies; any other value is stored. */
  function VolumeApply(s: Settings, volume: Option<int16>): (r: (Settings, seq<Call>))
    ensures r.0.snapshot == s.snapshot && r.0.hasConfig == s.hasConfig
    ensures SettingsValid(s) ==> SettingsValid(r.0)
  {
    match volume
    case None => (s, [ExceptionLogged])
    case Some(v) =>
      if v == -1 then (s, Report(s))
      else (WithVolume(s, v), [])
  }

  /**
   * What a `MasterVolume` message does: -1 reports the settings and changes
   * nothing; another value reads back as itself. The volume is not an entry of
   * the snapshot table and no flag changes.
   */
  lemma VolumeApplySound(s: Settings, volume: Option<int16>)
    ensures TableEntriesKept(s.entries, VolumeApply(s, volume).0.entries)
    ensures forall o :: o != SystemConfigOption.SoundMaster ==> Flag(VolumeApply(s, volume).0, o) == Flag(s, o)
    ensures volume == Some(-1) ==> VolumeApply(s, volume) == (s, Report(s))
    ensures volume.Some? && volume.value != -1 ==>
      VolumeApply(s, volume).1 == [] && Volume(VolumeApply(s, volume).0) == (if s.hasConfig then volume.value else -1)
    ensures volume.None? ==> VolumeApply(s, volume) == (s, [ExceptionLogged])
  {
    if volume.Some? && volume.value != -1 {
      var v := volume.value;
      VolumeAfterSet(s, v, SystemConfigOption.IsSndMaster);
      forall o | o != SystemConfigOption.SoundMaster
        ensures Flag(WithVolume(s, v), o) == Flag(s, o)
      {
        VolumeAfterSet(s, v, o);
      }
    } else {
      assert forall f :: OptionOf(f) in s.entries ==> OptionOf(f) in VolumeApply(s, volume).0.entries;
    }
  }

  /** The calls of a dequeued message that touches no setting; an `Instrument` id that does not convert logs the error. */
  function PlainCalls(m: PipeMessage): seq<Call> {
    match m.msgType
    case Chat => [SendChat(ChatLine(m.msgChannel, m.message))]
    case Instrument =>
      (match ParseUInt32(m.message) case Some(id) => [PerformAction(id)] case None => [ExceptionLogged])
    case AcceptReply => [ConfirmReceiveReadyCheck]
    case ExitGame => [KillProcess]
    case StartEnsemble => [BeginReadyCheck, ConfirmBeginReadyCheck]
    case _ => []
  }

  /** What a dequeued message asks for, its text already converted. */
  datatype Effect =
    | Gfx(low: Option<bool>)
    | State(enabled: Option<bool>, option: SystemConfigOption)
    | MasterVolumeSet(volume: Option<int16>)
    | Plain

  /** The case of the drain's `switch` a message takes. */
  function EffectOf(m: PipeMessage): (e: Effect)
    ensures e.Gfx? <==> m.msgType == SetGfx
    ensures e.State? && e.option == SystemConfigOption.IsSndMaster <==> m.msgType == MasterSoundState
  {
    match m.msgType
    case SetGfx => Gfx(ParseBool(m.message))
    case MasterSoundState => State(ParseBool(m.message), SystemConfigOption.IsSndMaster)
    case MasterVolume => MasterVolumeSet(ParseInt16(m.message))
    case VoiceSoundState => State(ParseBool(m.message), SystemConfigOption.IsSndVoice)
    case EffectsSoundState => State(ParseBool(m.message), SystemConfigOption.IsSndSe)
    case _ => Plain
  }

  /** The new settings and the calls of an effect. */
  function Apply(s: Settings, e: Effect, m: PipeMessage): (r: (Settings, seq<Call>))
    requires SettingsValid(s)
    ensures SettingsValid(r.0) && r.0.hasConfig == s.hasConfig
    ensures !e.Gfx? ==> r.0.snapshot == s.snapshot
    ensures e.Plain? ==> r.0 == s
  {
    match e
    case Gfx(low) => GfxApply(s, low)
    case State(enabled, option) => StateApply(s, enabled, option)
    case MasterVolumeSet(volume) => VolumeApply(s, volume)
    case Plain => (s, PlainCalls(m))
  }

  /**
   * The new settings and the calls of one dequeued message; a conversion that
   * throws leaves the settings as they are and logs the error.
   */
  function Step(s: Settings, m: PipeMessage): (r: (Settings, seq<Call>))
    requires SettingsValid(s)
    ensures SettingsValid(r.0) && r.0.hasConfig == s.hasConfig
    ensures m.msgType != SetGfx ==> r.0.snapshot == s.snapshot
  {
    Apply(s, EffectOf(m), m)
  }

  /**
   * Only `SetGfx` and `MasterSoundState` write entries of the snapshot table:
   * the voice and effects flags and the volume are entries outside it.
   */
  lemma StepKeepsTable(s: Settings, m: PipeMessage)
    requires SettingsValid(s) && m.msgType !in {SetGfx, MasterSoundState}
    ensures TableEntriesKept(s.entries, Step(s, m).0.entries)
  {
    match EffectOf(m)
    case Gfx(_) =>
    case State(enabled, option) => StateApplySound(s, enabled, option);
    case MasterVolumeSet(volume) => VolumeApplySound(s, volume);
    case Plain =>
  }

  /** A message type that is never queued has no case in the drain: it changes nothing and calls nothing. */
  lemma UnqueuedIgnored(s: Settings, m: PipeMessage)
    requires SettingsValid(s) && Classify(m.msgType) != Queued
    ensures Step(s, m) == (s, [])
  {
  }

  /** The queued types that do not touch the settings always make at least one call. */
  lemma QueuedCallsSomething(s: Settings, m: PipeMessage)
    requires SettingsValid(s) && Classify(m.msgType) == Queued
    requires m.msgType !in {MasterSoundState, VoiceSoundState, EffectsSoundState, MasterVolume}
    ensures Step(s, m).1 != []
  {
  }

  /**
   * The settings and calls of draining queue `q`: every message in order, until
   * `ExitGame` kills the process.
   */
  function Drain(s: Settings, q: seq<PipeMessage>): (r: (Settings, seq<Call>))
    requires SettingsValid(s)
    ensures SettingsValid(r.0)
    decreases |q|
  {
    if q == [] then (s, [])
    else
      var first := Step(s, q[0]);
      if IsExit(q[0]) then first
      else
        var rest := Drain(first.0, q[1..]);
        (rest.0, first.1 + rest.1)
  }

  /** Nothing queued behind the first `ExitGame` is ever handled. */
  lemma {:induction false} DrainStopsAtExit(s: Settings, q: seq<PipeMessage>, exit: PipeMessage, rest: seq<PipeMessage>)
    requires SettingsValid(s) && IsExit(exit)
    requires forall k :: 0 <= k < |q| ==> !IsExit(q[k])
    ensures Drain(s, q + [exit] + rest) == Drain(s, q + [exit])
    decreases |q|
  {
    if q == [] {
      assert (q + [exit] + rest)[0] == exit == (q + [exit])[0];
    } else {
      var first := Step(s, q[0]);
      assert (q + [exit] + rest)[0] == q[0] == (q + [exit])[0];
      assert (q + [exit] + rest)[1..] == q[1..] + [exit] + rest;
      assert (q + [exit])[1..] == q[1..] + [exit];
      DrainStopsAtExit(first.0, q[1..], exit, rest);
    }
  }

  /** A message whose conversion throws logs the error and the drain goes on with the next one. */
  lemma FailureIsLoggedAndDrainGoesOn(s: Settings, m: PipeMessage, q: seq<PipeMessage>)
    requires SettingsValid(s) && m.msgType == Instrument && ParseUInt32(m.message).None?
    ensures Drain(s, [m] + q) == (Drain(s, q).0, [ExceptionLogged] + Drain(s, q).1)
  {
    DrainCons(s, m, q);
  }

  /** Draining a queue that starts with `m`: `m`'s step, then, unless `m` is `ExitGame`, the rest. */
  lemma DrainCons(s: Settings, m: PipeMessage, q: seq<PipeMessage>)
    requires SettingsValid(s)
    ensures IsExit(m) ==> Drain(s, [m] + q) == Step(s, m)
    ensures !IsExit(m) ==> Drain(s, [m] + q) == (Drain(Step(s, m).0, q).0, Step(s, m).1 + Drain(Step(s, m).0, q).1)
  {
    assert ([m] + q)[0] == m;
    assert ([m] + q)[1..] == q;
  }

  function GfxMessage(text: string): PipeMessage {
    PipeMessage(SetGfx, 0, text)
  }

  lemma StepGfx(s: Settings, text: string)
    requires SettingsValid(s)
    ensures Step(s, GfxMessage(text)) == GfxApply(s, ParseBool(text))
  {
  }

  /** Two `SetGfx` messages drained one after the other. */
  lemma DrainTwoGfx(s: Settings, first: string, second: string)
    requires SettingsValid(s)
    ensures Drain(s, [GfxMessage(first), GfxMessage(second)]).0
      == GfxApply(GfxApply(s, ParseBool(first)).0, ParseBool(second)).0
    ensures Drain(s, [GfxMessage(first), GfxMessage(second)]).1
      == GfxApply(s, ParseBool(first)).1 + GfxApply(GfxApply(s, ParseBool(first)).0, ParseBool(second)).1
  {
    StepGfx(s, first);
    StepGfx(GfxApply(s, ParseBool(first)).0, second);
    DrainTwo(s, GfxMessage(first), GfxMessage(second));
  }

  /** Draining two messages, the first of them not `ExitGame`: the two steps one after the other. */
  lemma DrainTwo(s: Settings, a: PipeMessage, b: PipeMessage)
    requires SettingsValid(s) && !IsExit(a)
    ensures Drain(s, [a, b]) == (Step(Step(s, a).0, b).0, Step(s, a).1 + Step(Step(s, a).0, b).1)
  {
    var s1 := Step(s, a).0;
    DrainOne(s1, b);
    assert [a, b] == [a] + [b];
    DrainCons(s, a, [b]);
  }

  /** Lowering the graphics and then restoring them gives back every entry, and the table holds the old values. */
  lemma GfxToggleRestores(s: Settings)
    requires SettingsValid(s) && s.snapshot.Some?
    ensures Drain(s, [GfxMessage("True"), GfxMessage("False")]).0 == s.(snapshot := Some(Capture(s.entries)))
    ensures Drain(s, [GfxMessage("True"), GfxMessage("False")]).1 == [ApplyGraphicSettings, ApplyGraphicSettings]
  {
    ParseTrue();
    ParseFalse();
    DrainTwoGfx(s, "True", "False");
    RestoreUndoesMinimal(s.entries);
    var low := GfxApply(s, Some(true));
    assert low.0 == s.(entries := Minimal(s.entries), snapshot := Some(Capture(s.entries)));
    TwoCalls(ApplyGraphicSettings, ApplyGraphicSettings);
  }

  lemma TwoCalls(a: Call, b: Call)
    ensures [a] + [b] == [a, b]
  {
  }

  lemma ConsOfPair(a: PipeMessage, b: PipeMessage, c: PipeMessage)
    ensures [a, b, c] == [a] + [b, c]
  {
  }

  /**
   * Lowering twice overwrites the snapshot with the minimal preset, so the
   * restore that follows keeps the minimal entries.
   */
  lemma SecondLowOverwritesSnapshot(s: Settings)
    requires SettingsValid(s) && s.snapshot.Some?
    ensures Drain(s, [GfxMessage("True"), GfxMessage("True"), GfxMessage("False")]).0.entries == Minimal(s.entries)
  {
    ParseTrue();
    ParseFalse();
    var m := Minimal(s.entries);
    MinimalIdempotent(s.entries);
    CaptureOfMinimal(s.entries);
    RestoreOfCapture(m);
    var one := Lowered(s);
    assert one.entries == m && one.snapshot.Some?;
    var two := Lowered(one);
    assert two.entries == m && two.snapshot == Some(Capture(m));
    assert Restored(two).entries == m;
    StepGfx(s, "True");
    DrainTwoGfx(one, "True", "False");
    ConsOfPair(GfxMessage("True"), GfxMessage("True"), GfxMessage("False"));
    DrainCons(s, GfxMessage("True"), [GfxMessage("True"), GfxMessage("False")]);
  }

  /** Without a snapshot table the restore has nothing to write back: the minimal preset stays. */
  lemma NoTableNoRestore(s: Settings)
    requires SettingsValid(s) && s.snapshot.None?
    ensures Drain(s, [GfxMessage("True"), GfxMessage("False")]).0 == s.(entries := Minimal(s.entries))
  {
    ParseTrue();
    ParseFalse();
    DrainTwoGfx(s, "True", "False");
  }

  /** The snapshot restores the master-sound entry, so a value written to it after the capture is overwritten. */
  lemma RestoreOverwritesMasterEntry(entries: map<ConfigOption, uint32>, v: uint32, t: VarTableValues)
    requires HasTableEntries(entries)
    ensures Restore(entries[ConfigOption.IsSndMaster := v], t) == Restore(entries, t)
  {
    var a, b := Restore(entries[ConfigOption.IsSndMaster := v], t), Restore(entries, t);
    forall o | o in a
      ensures a[o] == b[o]
    {
      if FieldOf(o).Some? {
        OptionOfFieldOf(o);
      }
    }
    SameEntries(a, b);
  }

  /** A `MasterSoundState` message with the given text. */
  function StateMessage(text: string): PipeMessage {
    PipeMessage(MasterSoundState, 0, text)
  }

  /** A `MasterSoundState` message is the sound-state rule for the master flag. */
  lemma StepState(s: Settings, text: string)
    requires SettingsValid(s)
    ensures Step(s, StateMessage(text)) == StateApply(s, ParseBool(text), SystemConfigOption.IsSndMaster)
  {
  }

  /**
   * Lowering the graphics, muting, restoring the graphics and asking for the
   * sound settings: the restore writes back the master-sound flag captured
   * before the mute, so every entry is as it was and the replies report the
   * settings from before.
   */
  lemma MuteBetweenLowerAndRestoreIsUndone(s: Settings)
    requires SettingsValid(s) && s.snapshot.Some?
    ensures Drain(s, [GfxMessage("True"), StateMessage("False"), GfxMessage("False"), VolumeMessage("-1")]).0
      == s.(snapshot := Some(Capture(s.entries)))
    ensures Drain(s, [GfxMessage("True"), StateMessage("False"), GfxMessage("False"), VolumeMessage("-1")]).1
      == [ApplyGraphicSettings, ApplyGraphicSettings] + Report(s)
  {
    var s1 := Lowered(s);
    var s2 := WithFlag(s1, SystemConfigOption.IsSndMaster, false);
    var s3 := s.(snapshot := Some(Capture(s.entries)));
    LowerStep(s);
    MuteStep(s1);
    RestoreAfterMute(s);
    QueryStep(s3);
    var q := [GfxMessage("True"), StateMessage("False"), GfxMessage("False"), VolumeMessage("-1")];
    DrainFour(s, q[0], q[1], q[2], q[3]);
    assert Report(s3) == Report(s);
    TwoCallsThen(ApplyGraphicSettings, ApplyGraphicSettings, Report(s));
  }

  /** `[a] + ([] + ([b] + rest))` is `[a, b] + rest`. */
  lemma TwoCallsThen(a: Call, b: Call, rest: seq<Call>)
    ensures [a] + ([] + ([b] + rest)) == [a, b] + rest
  {
    assert [] + ([b] + rest) == [b] + rest;
  }

  /** `SetGfx` "True" lowers the graphics. */
  lemma LowerStep(s: Settings)
    requires SettingsValid(s)
    ensures Step(s, GfxMessage("True")) == (Lowered(s), [ApplyGraphicSettings])
  {
    ParseTrue();
    StepGfx(s, "True");
  }

  /** `SetGfx` "False" restores the graphics. */
  lemma RestoreStep(s: Settings)
    requires SettingsValid(s)
    ensures Step(s, GfxMessage("False")) == (Restored(s), [ApplyGraphicSettings])
  {
    ParseFalse();
    StepGfx(s, "False");
  }

  /** `MasterSoundState` "False" mutes the game. */
  lemma MuteStep(s: Settings)
    requires SettingsValid(s)
    ensures Step(s, StateMessage("False")) == (WithFlag(s, SystemConfigOption.IsSndMaster, false), [])
  {
    ParseFalse();
    StepState(s, "False");
  }

  /** `MasterVolume` "-1" reports the settings and changes nothing. */
  lemma QueryStep(s: Settings)
    requires SettingsValid(s)
    ensures Step(s, VolumeMessage("-1")) == (s, Report(s))
  {
    ParseFormatted(-1);
    assert FormatInteger(-1) == "-1";
    StepVolume(s, "-1");
  }

  /** The restore after a mute that followed the lowering writes back every entry, the master flag included. */
  lemma RestoreAfterMute(s: Settings)
    requires SettingsValid(s) && s.snapshot.Some?
    ensures SettingsValid(WithFlag(Lowered(s), SystemConfigOption.IsSndMaster, false))
    ensures Step(WithFlag(Lowered(s), SystemConfigOption.IsSndMaster, false), GfxMessage("False"))
      == (s.(snapshot := Some(Capture(s.entries))), [ApplyGraphicSettings])
  {
    var s2 := WithFlag(Lowered(s), SystemConfigOption.IsSndMaster, false);
    FlagAfterSet(Lowered(s), SystemConfigOption.IsSndMaster, SystemConfigOption.IsSndMaster, false);
    RestoreStep(s2);
    if s.hasConfig {
      RestoreOverwritesMasterEntry(Minimal(s.entries), FlagValue(true), Capture(s.entries));
    }
    RestoreUndoesMinimal(s.entries);
  }

  /** Draining a single message is its step. */
  lemma DrainOne(s: Settings, m: PipeMessage)
    requires SettingsValid(s)
    ensures Drain(s, [m]) == Step(s, m)
  {
    assert [m][0] == m;
    assert [m][1..] == [];
    assert Step(s, m).1 + [] == Step(s, m).1;
  }

  /** Draining four messages, none of the first three `ExitGame`: the four steps one after the other. */
  lemma DrainFour(s: Settings, a: PipeMessage, b: PipeMessage, c: PipeMessage, d: PipeMessage)
    requires SettingsValid(s) && !IsExit(a) && !IsExit(b) && !IsExit(c)
    ensures var s1 := Step(s, a).0; var s2 := Step(s1, b).0; var s3 := Step(s2, c).0;
      Drain(s, [a, b, c, d]) == (Step(s3, d).0, Step(s, a).1 + (Step(s1, b).1 + (Step(s2, c).1 + Step(s3, d).1)))
  {
    var s1 := Step(s, a).0;
    var s2 := Step(s1, b).0;
    var s3 := Step(s2, c).0;
    var q3 := [d];
    var q2 := [c] + q3;
    var q1 := [b] + q2;
    assert [a, b, c, d] == [a] + q1;
    DrainOne(s3, d);
    var d3 := Drain(s3, q3);
    assert d3 == Step(s3, d);
    DrainCons(s2, c, q3);
    var d2 := Drain(s2, q2);
    assert d2 == (d3.0, Step(s2, c).1 + d3.1);
    DrainCons(s1, b, q2);
    var d1 := Drain(s1, q1);
    assert d1 == (d2.0, Step(s1, b).1 + d2.1);
    DrainCons(s, a, q1);
  }



  function VolumeMessage(text: string): PipeMessage {
    PipeMessage(MasterVolume, 0, text)
  }

  lemma StepVolume(s: Settings, text: string)
    requires SettingsValid(s)
    ensures Step(s, VolumeMessage(text)) == VolumeApply(s, ParseInt16(text))
  {
  }

  /**
   * A volume set through the pipe is the one the next query reports, together
   * with the flags as they were; without a sound config the query reports -1.
   */
  lemma VolumeSetThenQueried(s: Settings, volume: int16)
    requires SettingsValid(s) && volume != -1
    ensures Drain(s, [VolumeMessage(FormatInteger(volume)), VolumeMessage(FormatInteger(-1))]).1
      == [ WriteVolume(if s.hasConfig then volume else -1),
           WriteState(MasterSoundState, Flag(s, SystemConfigOption.IsSndMaster)),
           WriteState(VoiceSoundState, Flag(s, SystemConfigOption.IsSndVoice)),
           WriteState(EffectsSoundState, Flag(s, SystemConfigOption.IsSndSe)) ]
  {
    var stored := WithVolume(s, volume);
    VolumeThenQueryCalls(s, volume);
    VolumeAfterSet(s, volume, SystemConfigOption.IsSndMaster);
    VolumeAfterSet(s, volume, SystemConfigOption.IsSndVoice);
    VolumeAfterSet(s, volume, SystemConfigOption.IsSndSe);
    assert Report(stored)[0] == WriteVolume(if s.hasConfig then volume else -1);
  }

  /** The calls of a set followed by a query, in terms of the stored settings. */
  lemma VolumeThenQueryCalls(s: Settings, volume: int16)
    requires SettingsValid(s) && volume != -1
    ensures Drain(s, [VolumeMessage(FormatInteger(volume)), VolumeMessage(FormatInteger(-1))]).1
      == Report(WithVolume(s, volume))
  {
    ParseFormatted(volume);
    ParseFormatted(-1);
    var setter, query := VolumeMessage(FormatInteger(volume)), VolumeMessage(FormatInteger(-1));
    var stored := WithVolume(s, volume);
    StepVolume(s, FormatInteger(volume));
    StepVolume(stored, FormatInteger(-1));
    DrainTwo(s, setter, query);
    assert [] + Report(stored) == Report(stored);
  }

  /** Every message in the queue is one the router queues. */
  predicate AllQueued(q: seq<PipeMessage>) {
    forall k :: 0 <= k < |q| ==> Classify(q[k].msgType) == Queued
  }

  /** Draining from position `i` starts with the message there. */
  lemma DrainAt(s: Settings, q: seq<PipeMessage>, i: nat)
    requires SettingsValid(s) && i < |q|
    ensures IsExit(q[i]) ==> Drain(s, q[i..]) == Step(s, q[i])
    ensures !IsExit(q[i]) ==> Drain(s, q[i..]) == (Drain(Step(s, q[i]).0, q[i + 1..]).0, Step(s, q[i]).1 + Drain(Step(s, q[i]).0, q[i + 1..]).1)
  {
    SuffixCons(q, i);
    DrainCons(s, q[i], q[i + 1..]);
  }

  /**
   * One step of the drain loop: draining from position `i` is handling the
   * message there and, unless it is `ExitGame`, draining from `i + 1`.
   */
  lemma DrainStep(s0: Settings, q0: seq<PipeMessage>, i: nat, s: Settings, done: seq<Call>)
    requires SettingsValid(s0) && SettingsValid(s) && i < |q0| && !IsExit(q0[i])
    requires Drain(s0, q0) == (Drain(s, q0[i..]).0, done + Drain(s, q0[i..]).1)
    ensures Drain(s0, q0) == (Drain(Step(s, q0[i]).0, q0[i + 1..]).0, (done + Step(s, q0[i]).1) + Drain(Step(s, q0[i]).0, q0[i + 1..]).1)
  {
    var first := Step(s, q0[i]);
    var rest := Drain(first.0, q0[i + 1..]);
    DrainAt(s, q0, i);
    ConcatAssoc(done, first.1, rest.1);
  }

  // ---------------------------------------------------------------------------
  // The window
  // ---------------------------------------------------------------------------

  /** The window's state: the settings stores it acts on, the reconnect flags, the queue and everything it has done. */
  class PluginUi {
    const system: SystemConfig
    const customTable: GameSettingsVarTable?
    const config: GameConfig?
    var autoConnect: bool
    var link: Link
    var visible: bool
    var queue: seq<PipeMessage>
    var log: seq<Call>
    var requests: seq<PipeRequest>
    var exited: bool

    /** The game config, when there is one, is a view of the same system config the graphics settings use. */
    predicate OneStore() {
      config != null ==> config.system == system
    }

    predicate Valid()
      reads this, system
    {
      system.Valid() && AllQueued(queue) && OneStore()
    }

    /** The settings as the drain sees them. */
    function Current(): (s: Settings)
      reads this, system, customTable
      ensures SettingsValid(s) <==> system.Valid()
    {
      Settings(
        system.entries,
        if customTable != null then Some(customTable.values) else Option.None,
        config != null)
    }

    /** The constructor: the timer runs when AutoConnect is on and the window starts hidden. */
    constructor (system: SystemConfig, customTable: GameSettingsVarTable?, config: GameConfig?, autoConnect: bool)
      requires system.Valid() && (config != null ==> config.system == system)
      ensures Valid()
      ensures this.system == system && this.customTable == customTable && this.config == config
      ensures link == Initial(autoConnect) && this.autoConnect == autoConnect
      ensures queue == [] && log == [] && requests == [] && !visible && !exited
    {
      this.system := system;
      this.customTable := customTable;
      this.config := config;
      this.autoConnect := autoConnect;
      link := Initial(autoConnect);
      visible := false;
      queue := [];
      log := [];
      requests := [];
      exited := false;
    }

    /** The AutoConnect checkbox. */
    method SetAutoConnect(value: bool)
      modifies this
      ensures autoConnect == value
      ensures link == old(link) && queue == old(queue) && log == old(log) && requests == old(requests)
      ensures exited == old(exited) && visible == old(visible)
    {
      autoConnect := value;
    }

    /** The `Visible` property, which the plugin's commands set and the window's close button clears. */
    method SetVisible(value: bool)
      modifies this
      ensures visible == value
      ensures (queue, link, log, requests, autoConnect, exited) == old((queue, link, log, requests, autoConnect, exited))
    {
      visible := value;
    }

    /**
     * `pipeClient_MessageReceived`. `newerVersion` says whether the version a
     * `Version` message carries is newer than that of the host process's entry
     * assembly (or there is no entry assembly to compare with): then the window
     * disconnects for good and logs that it is out of date; any other `Version`
     * changes nothing. Notes and tone changes are played at once, the ten
     * queued types are queued and everything else is dropped.
     */
    method MessageReceived(msg: Option<PipeMessage>, newerVersion: bool, client: Option<Client>)
      requires Valid()
      modifies this
      ensures Valid()
      ensures msg.Some? && msg.value.msgType == Version && newerVersion ==>
        link == old(link).(manuallyDisconnected := true)
        && requests == old(requests) + (if client.Some? then [DisconnectAsync] else [])
        && log == old(log) + [OutOfDateLogged]
      ensures !(msg.Some? && msg.value.msgType == Version && newerVersion) ==> link == old(link) && requests == old(requests)
      ensures msg.None? || Classify(msg.value.msgType) == Dropped ==> log == old(log)
      ensures msg.Some? && Classify(msg.value.msgType) == Queued ==>
        queue == old(queue) + [msg.value] && log == old(log)
      ensures msg.None? || Classify(msg.value.msgType) != Queued ==> queue == old(queue)
      ensures msg.Some? && (msg.value.msgType in {NoteOn, NoteOff, ProgramChange}) ==>
        log == old(log) + ImmediateCalls(msg.value)
      ensures autoConnect == old(autoConnect) && exited == old(exited) && visible == old(visible)
    {
      if msg.None? {
        return;
      }
      var m := msg.value;
      if m.msgType == Version {
        if newerVersion {
          link := link.(manuallyDisconnected := true);
          if client.Some? {
            requests := requests + [DisconnectAsync];
          }
          log := log + [OutOfDateLogged];
        }
        return;
      }
      match Classify(m.msgType) {
        case Immediate =>
          log := log + ImmediateCalls(m);
        case Queued =>
          queue := queue + [m];
        case Dropped =>
      }
    }

    /** The `SetGfx` case of the drain, on the system config and the snapshot table. */
    method HandleGfx(low: Option<bool>)
      requires system.Valid()
      modifies this, system, customTable
      ensures system.Valid()
      ensures Current() == GfxApply(old(Current()), low).0
      ensures log == old(log) + GfxApply(old(Current()), low).1
      ensures (queue, link, requests, autoConnect, exited, visible)
        == old((queue, link, requests, autoConnect, exited, visible))
    {
      match low {
        case None =>
          log := log + [ExceptionLogged];
        case Some(low) =>
          if low {
            LowerGfx();
          } else {
            RestoreGfx();
          }
          log := log + [ApplyGraphicSettings];
      }
    }

    /** The `true` case of `SetGfx`: snapshot, then the minimal preset. */
    method LowerGfx()
      requires system.Valid()
      modifies system, customTable
      ensures system.Valid()
      ensures Current() == Lowered(old(Current()))
    {
      system.GetSettings(customTable);
      system.SetMinimalGfx();
    }

    /** The `false` case of `SetGfx`: the snapshot written back. */
    method RestoreGfx()
      requires system.Valid()
      modifies system
      ensures system.Valid()
      ensures Current() == Restored(old(Current()))
    {
      system.RestoreSettings(customTable);
    }

    /** A `…SoundState` case of the drain, on the sound config. */
    method HandleState(enabled: Option<bool>, option: SystemConfigOption)
      requires OneStore()
      modifies this, system
      ensures Current() == StateApply(old(Current()), enabled, option).0
      ensures log == old(log) + StateApply(old(Current()), enabled, option).1
      ensures (queue, link, requests, autoConnect, exited, visible)
        == old((queue, link, requests, autoConnect, exited, visible))
    {
      match enabled {
        case None =>
          log := log + [ExceptionLogged];
        case Some(enabled) =>
          SetSoundEnable(config, option, enabled);
      }
    }

    /** The `MasterVolume` case of the drain: the replies read the sound config, a value is stored in it. */
    method HandleVolume(volume: Option<int16>)
      requires OneStore()
      modifies this, system
      ensures Current() == VolumeApply(old(Current()), volume).0
      ensures log == old(log) + VolumeApply(old(Current()), volume).1
      ensures (queue, link, requests, autoConnect, exited, visible)
        == old((queue, link, requests, autoConnect, exited, visible))
    {
      match volume {
        case None =>
          log := log + [ExceptionLogged];
        case Some(volume) =>
          if volume == -1 {
            log := log + [ WriteVolume(GetMasterSoundVolume(config)),
                          WriteState(MasterSoundState, GetMasterSoundEnable(config)),
                          WriteState(VoiceSoundState, GetVoiceSoundEnable(config)),
                          WriteState(EffectsSoundState, GetEffectsSoundEnable(config)) ];
          } else {
            SetMasterSoundVolume(config, volume);
          }
      }
    }

    /** One dequeued message of the drain, with the error of a throwing conversion logged. */
    method HandleMessage(m: PipeMessage)
      requires system.Valid() && OneStore()
      modifies this, system, customTable
      ensures system.Valid()
      ensures Current() == Step(old(Current()), m).0
      ensures log == old(log) + Step(old(Current()), m).1
      ensures (queue, link, requests, autoConnect, exited, visible)
        == old((queue, link, requests, autoConnect, exited, visible))
    {
      match EffectOf(m) {
        case Gfx(low) => HandleGfx(low);
        case State(enabled, option) => HandleState(enabled, option);
        case MasterVolumeSet(volume) => HandleVolume(volume);
        case Plain => HandlePlain(m);
      }
    }

    /** The cases of the drain that touch no setting: the calls into the game and the plugin. */
    method HandlePlain(m: PipeMessage)
      modifies this
      ensures log == old(log) + PlainCalls(m)
      ensures (queue, link, requests, autoConnect, exited, visible)
        == old((queue, link, requests, autoConnect, exited, visible))
    {
      match m.msgType {
        case Chat =>
          log := log + [SendChat(ChatLine(m.msgChannel, m.message))];
        case Instrument =>
          match ParseUInt32(m.message) {
            case Some(id) => log := log + [PerformAction(id)];
            case None => log := log + [ExceptionLogged];
          }
        case AcceptReply =>
          log := log + [ConfirmReceiveReadyCheck];
        case ExitGame =>
          log := log + [KillProcess];
        case StartEnsemble =>
          log := log + [BeginReadyCheck, ConfirmBeginReadyCheck];
        case _ =>
      }
    }

    /**
     * The drain at the end of `DrawMainWindow`, which runs whether or not the
     * window is visible: every queued message in order, until `ExitGame` kills
     * the process with the messages behind it still queued.
     */
    method Draw()
      requires Valid()
      modifies this, system, customTable
      ensures Valid()
      ensures Current() == Drain(old(Current()), old(queue)).0
      ensures log == old(log) + Drain(old(Current()), old(queue)).1
      ensures exited <==> old(exited) || FirstIndex(old(queue), IsExit).Some?
      ensures queue == Remaining(old(queue))
      ensures (link, requests, autoConnect, visible) == old((link, requests, autoConnect, visible))
    {
      ghost var s0 := Current();
      ghost var q0 := queue;
      ghost var done: seq<Call> := [];
      ghost var i := 0;
      assert q0[0..] == q0;
      assert done + Drain(s0, q0).1 == Drain(s0, q0).1;
      while queue != []
        invariant system.Valid() && OneStore() && i <= |q0| && queue == q0[i..]
        invariant forall k :: 0 <= k < i ==> !IsExit(q0[k])
        invariant Drain(s0, q0) == (Drain(Current(), queue).0, done + Drain(Current(), queue).1)
        invariant log == old(log) + done
        invariant (link, requests, autoConnect, exited, visible) == old((link, requests, autoConnect, exited, visible))
        decreases |queue|
      {
        ghost var before, m := Current(), queue[0];
        DrainAt(before, q0, i);
        var killed := DrainNext();
        ConcatAssoc(old(log), done, Step(before, m).1);
        if killed {
          ExitFound(q0, i);
          AllQueuedSuffix(q0, i + 1);
          return;
        }
        DrainStep(s0, q0, i, before, done);
        done := done + Step(before, m).1;
        i := i + 1;
      }
      assert Drain(s0, q0) == (Current(), done) by {
        assert done + [] == done;
      }
      AllQueuedSuffix(q0, i);
    }

    /** One pass of the drain loop: the first queued message dequeued and handled; `ExitGame` kills the process. */
    method DrainNext() returns (killed: bool)
      requires system.Valid() && OneStore() && queue != []
      modifies this, system, customTable
      ensures system.Valid() && queue == old(queue[1..])
      ensures Current() == Step(old(Current()), old(queue[0])).0
      ensures log == old(log) + Step(old(Current()), old(queue[0])).1
      ensures killed == IsExit(old(queue[0])) && exited == (old(exited) || killed)
      ensures (link, requests, autoConnect, visible) == old((link, requests, autoConnect, visible))
    {
      var m := queue[0];
      queue := queue[1..];
      HandleMessage(m);
      killed := IsExit(m);
      if killed {
        exited := true;
      }
    }

    /** `reconnectTimer_Elapsed`, against the pipe client as it is at that moment. */
    method ReconnectTimerElapsed(client: Option<Client>)
      modifies this
      ensures link == Tick(old(link), client).0
      ensures requests == old(requests) + Tick(old(link), client).1
      ensures queue == old(queue) && log == old(log) && autoConnect == old(autoConnect) && exited == old(exited)
    {
      if link.manuallyDisconnected {
        return;
      }
      if client.Some? {
        if client.value.isConnected {
          link := link.(timerEnabled := false);
          return;
        }
        if !client.value.isConnecting {
          requests := requests + [ConnectAsync];
        }
      }
    }

    /** `pipeClient_Disconnected`. */
    method PipeClientDisconnected()
      modifies this
      ensures link == OnDisconnected(old(link), autoConnect)
      ensures queue == old(queue) && log == old(log) && requests == old(requests)
      ensures autoConnect == old(autoConnect) && exited == old(exited)
    {
      if !autoConnect {
        return;
      }
      link := link.(timerInterval := ReconnectInterval, timerEnabled := autoConnect);
    }

    /** The Connect button. */
    method Connect()
      modifies this
      ensures link == ConnectButton(old(link), autoConnect)
      ensures queue == old(queue) && log == old(log) && requests == old(requests)
      ensures autoConnect == old(autoConnect) && exited == old(exited)
    {
      if autoConnect {
        link := link.(manuallyDisconnected := false);
      }
      link := link.(timerInterval := ConnectInterval, timerEnabled := true);
    }

    /** The Disconnect button. */
    method Disconnect(client: Option<Client>)
      modifies this
      ensures link == DisconnectButton(old(link), client).0
      ensures requests == old(requests) + DisconnectButton(old(link), client).1
      ensures queue == old(queue) && log == old(log)
      ensures autoConnect == old(autoConnect) && exited == old(exited)
    {
      if client.Some? && !client.value.isConnected {
        return;
      }
      if client.Some? {
        requests := requests + [DisconnectAsync];
      }
      link := link.(manuallyDisconnected := true);
    }

    /** `Dispose`: the window counts as manually disconnected and disconnects the client it has. */
    method Dispose(client: Option<Client>)
      modifies this
      ensures link == old(link).(manuallyDisconnected := true)
      ensures Tick(link, client) == (link, [])
      ensures requests == old(requests) + (if client.Some? then [DisconnectAsync] else [])
      ensures queue == old(queue) && log == old(log)
    {
      link := link.(manuallyDisconnected := true);
      if client.Some? {
        requests := requests + [DisconnectAsync];
      }
    }
  }

  /** A suffix of a queue of queued messages holds only queued messages. */
  lemma AllQueuedSuffix(q: seq<PipeMessage>, i: nat)
    requires AllQueued(q) && i <= |q|
    ensures AllQueued(q[i..])
  {
    forall k | 0 <= k < |q[i..]|
      ensures Classify(q[i..][k].msgType) == Queued
    {
      assert q[i..][k] == q[i + k];
    }
  }
}
