# Whiskers, modelled in Dafny

Whiskers is a game-client plugin. It attaches to a running MMO client through a
plugin host and opens a named pipe to an external bard program. Over the pipe
the program plays notes, changes instruments, sends chat lines, drives party
operations (invites, promotion, follow, teleport, house entry), switches the
graphics and sound settings, and shuts the client down. Under the glue to the
host sit several small sequential cores, and this project models them:

- `PerformActions`: the mini-keyboard key remapping, the shape check on UI
  callbacks, and the held-note state, whose "no note" value is -100
  (`perform_actions.dfy`).
- The pipe's message codes and chat-channel table (`message_enums.dfy`), and
  the chat sender's checks, sanitiser guard and null-terminated payload
  (`chat.dfy`).
- The graphics snapshot table of 32 config entries, its capture, restore and
  "minimal" preset, the sound enable/volume pairs with their casts, and the
  agent table (`game_settings.dfy`, `numeric.dfy`).
- Signature-string normalisation and the setup loop. The loop resolves every
  address as scan plus offset and collects every failure (`offset_manager.dfy`).
- Both `Party` classes with their `SelectYesNo` auto-accept listeners
  (`party_auto_accept.dfy`, `offsets_party.dfy`). Their shared callback and
  dialog-text code is in `game_ui.dfy`. The house-entrance search is in
  `misc.dfy`.
- The movement override's input arbitration (`movement.dfy`), the move task's
  polling loop with its stuck counter (`movement_factory.dfy`), and the follow
  system's per-frame decision (`follow_system.dfy`).
- The two pipe windows, `MainWindow` and the older `PluginUi`
  (`main_window.dfy`, `plugin_ui.dfy`, `pipe_routing.dfy`):
  - how a message is routed: acted on at once, queued or dropped;
  - the first-in first-out drain, in which a failing message is logged and the
    next one is still handled;
  - the "-1 means query" volume rule;
  - the snapshot-and-restore graphics toggle;
  - the reconnect flags.

Host services become parameters:
- a missing service or object is an `Option` or a `null` reference;
- config storage is a map from option to number;
- the object table is a sequence;
- a regular-expression match is a predicate;
- a distance is a function to reals.

A call into host code outside this model is a value appended to a log, in the
order the code makes it. So is a call from the `MainWindow` message handlers
into the party and sound classes modelled here (see "## Left out").

The string helpers (`text.dfy`) follow .NET's `Trim`, `Split`,
`Replace`, `Char.IsWhiteSpace` and the `Convert.To…` parsers on strings of
Unicode scalar values.

Several `MessageType` members are used by `Whiskers/Windows/MainWindow.cs` but
missing from `Whiskers/MessageEnums.cs`. They are constructors without a
numeric code.

## Model

| member | source | states |
|---|---|---|
| MessageEnums.FromCode | Whiskers/MessageEnums.cs:10-51 | a number read back as a message type gives a member whose declared value is that number |
| MessageEnums.CodeRoundTrip | Whiskers/MessageEnums.cs:10-51 | every declared member is read back from its own numeric value |
| MessageEnums.CodesDistinct | Whiskers/MessageEnums.cs:10-51 | no two declared members share a numeric value |
| MessageEnums.FirstWithCode | Whiskers/MessageEnums.cs:91-93 | the entry found is in the table and has the code; none is found exactly when no entry has it |
| MessageEnums.TryParseByChannelCode | Whiskers/MessageEnums.cs:89-98 | true exactly when some entry of the channel table has the code, returning that entry; otherwise false and the None channel |
| MessageEnums.ParseByChannelCode | Whiskers/MessageEnums.cs:83-87 | always a table entry: the one with the code, or the None channel |
| MessageEnums.ParseIsUnique | Whiskers/MessageEnums.cs:53-70 | the table's channel codes are pairwise distinct, so parsing a code gives exactly the entry that carries it |
| MessageEnums.UnknownCodeIsNone | Whiskers/MessageEnums.cs:89-98 | a code outside the table gives the None channel, whose shortcut is empty |
| MessageEnums.NamedChannels | Whiskers/MessageEnums.cs:56-60 | codes 0x0A, 0x1E, 0x0B, 0x0E and 0x18 give the shortcuts /s, /y, /sh, /p and /fc |
| MessageEnums.Code | Whiskers/MessageEnums.cs:10-51 | the number each member of the enumeration is declared with, and none for the message types the code uses that the enumeration does not declare |
| MessageEnums.SoundMember | Whiskers/MessageEnums.cs:33-46 | the sound message type declared with each number from 60 to 73 |
| Text.LeadingCount | Whiskers/Utils/AutoSelect.cs:168 | counts exactly the run of white characters at the start of the string |
| Text.TrailingCount | Whiskers/Utils/AutoSelect.cs:168 | counts exactly the run of white characters at the end of the string |
| Text.TrimBy | Whiskers/Utils/AutoSelect.cs:168 | the trimmed string is a slice of the input that neither starts nor ends with a white character |
| Text.TrimRemovesOnlyWhite | Whiskers/Utils/AutoSelect.cs:168 | everything trimming removes, on either side, is white |
| Text.TrimOfTrimmed | Whiskers/Offsets/OffsetManager.cs:25 | a string whose ends are not white is its own trim |
| Text.Split | Whiskers/GameFunctions/Party.cs:59-60 | a split gives at least one piece and no piece contains the separator |
| Text.JoinSplit | Whiskers/GameFunctions/Party.cs:59-60 | joining the pieces of a split with the separator gives back the original string |
| Text.SplitWithoutSeparator | Whiskers/GameFunctions/Party.cs:59-60 | a string without the separator splits into itself alone |
| Text.SplitAfterPiece | Whiskers/GameFunctions/Party.cs:59-60 | "name;rest" with no separator in the name splits into the name followed by the pieces of the rest |
| Text.SplitJoin | Whiskers/Offsets/OffsetManager.cs:25 | splitting a join of separator-free pieces gives the pieces back |
| Text.Field | Whiskers/GameFunctions/Party.cs:59-60 | the indexed piece exists exactly when the index is below the number of pieces, where C# indexing would not throw |
| Text.ReplaceChar | Whiskers/Utils/AutoSelect.cs:168 | every occurrence of one character, and nothing else, is replaced |
| Text.NatDigits | Whiskers/GameFunctions/Party.cs:60 | a natural number is written as at least one decimal digit |
| Text.DigitsOfNat | Whiskers/GameFunctions/Party.cs:60 | the written digits read back as the number |
| Text.FormattedIsTrimmed | Whiskers/GameFunctions/Party.cs:60 | a formatted integer has no white space to strip |
| Text.ParseSignedFormatted | Whiskers/GameFunctions/Party.cs:60 | a signed formatted integer reads back as itself |
| Text.ParseFormatted | Whiskers/GameFunctions/Party.cs:60 | parsing what integer formatting writes gives back the number |
| Text.DropTrailingNulls | Whiskers/PluginUI.cs:130 | the text without its trailing null characters: a prefix, everything cut is a null, and it does not end in one |
| Text.ParseIgnoresTrailingNulls | Whiskers/PluginUI.cs:130 | null characters appended after a number change nothing in what it parses as |
| Text.ParseInt16 | Whiskers/PluginUI.cs:130 | a value exactly when the text is a well-formed integer in the 16-bit signed range, and then that integer |
| Text.ParseUInt16 | Whiskers/GameFunctions/Party.cs:60 | a value exactly when the text is a well-formed integer in the 16-bit unsigned range, and then that integer |
| Text.ParseInt32 | Whiskers/PluginUI.cs:136 | a value exactly when the text is a well-formed integer in the 32-bit signed range, and then that integer |
| Text.ParseUInt32 | Whiskers/PluginUI.cs:269 | a value exactly when the text is a well-formed integer in the 32-bit unsigned range, and then that integer |
| Text.ParseTrue | Whiskers/PluginUI.cs:275 | "True" reads as true |
| Text.ParseFalse | Whiskers/PluginUI.cs:275 | "False" reads as false |
| Text.ParseFormattedBool | Whiskers/PluginUI.cs:275 | parsing what boolean formatting writes gives back the boolean |
| Text.IsWhiteSpace | Whiskers/Utils/AutoSelect.cs:168 | the characters `Char.IsWhiteSpace` accepts: the Unicode white-space characters |
| Text.IsNumberWhite | Whiskers/PluginUI.cs:130 | the white space the integer parsers skip around a number: tab to carriage return, and space |
| Text.IsWhiteSpaceOrNull | Whiskers/PluginUI.cs:275 | the characters the boolean parser strips: white space and the null character |
| Text.Trim | Whiskers/Utils/AutoSelect.cs:168 | the string without its leading and trailing white space |
| Text.Join | Whiskers/Offsets/OffsetManager.cs:25 | the pieces with the separator between each two of them |
| Text.Concat | Whiskers/Utils/AutoSelect.cs:168 | the pieces one after another, with nothing between them |
| Text.FormatInteger | Whiskers/GameFunctions/Party.cs:60 | an integer written in decimal, with a minus sign when it is negative |
| Text.ParseSignedDigits | Whiskers/PluginUI.cs:130 | an optional sign followed by one or more ASCII digits, read as an integer; none for anything else |
| Text.ParseInteger | Whiskers/PluginUI.cs:130 | an integer, after dropping trailing nulls and the white space around the number; none stands for the format exception |
| Text.EqualsIgnoreCase | Whiskers/PluginUI.cs:275 | two strings are equal once ASCII letters are compared without regard to case |
| Text.ParseBool | Whiskers/PluginUI.cs:275 | "True" or "False" in any letter case, with white space and nulls around it; none stands for the format exception |
| Text.FormatBool | Whiskers/PluginUI.cs:275 | a boolean written as "True" or "False" |
| Seqs.FirstIndex | Whiskers/GameFunctions/Party.cs:78-85 | the index of the first element that passes the test, every earlier one failing it; None exactly when no element passes |
| GameSettings.FieldOf | Whiskers/Offsets/GameSettings.cs:109-147 | the table property kept for a config entry is one whose own entry is that entry |
| GameSettings.FieldOfOptionOf | Whiskers/Offsets/GameSettings.cs:109-147 | every one of the 32 table properties is captured from its own distinct config entry |
| GameSettings.OptionOfFieldOf | Whiskers/Offsets/GameSettings.cs:160-200 | every config entry the table refers to is written back from exactly the property that was captured from it |
| GameSettings.GameSettingsVarTable.constructor | Whiskers/Offsets/GameSettings.cs:16-51 | a new table holds 0 in every property |
| GameSettings.CaptureGet | Whiskers/Offsets/GameSettings.cs:103-149 | each property of a snapshot holds the value of its own config entry |
| GameSettings.Restore | Whiskers/Offsets/GameSettings.cs:154-202 | restoring writes each property's value to its entry, keeps the set of entries, and leaves every entry outside the table unchanged |
| GameSettings.Minimal | Whiskers/Offsets/GameSettings.cs:218-253 | the preset writes its value into 31 entries and leaves the sound entry and every entry outside the table unchanged |
| GameSettings.CaptureOfRestore | Whiskers/Offsets/GameSettings.cs:103-202 | restoring a snapshot and taking a new one gives the same snapshot back |
| GameSettings.RestoreOfCapture | Whiskers/Offsets/GameSettings.cs:103-202 | taking a snapshot and restoring it at once leaves every entry as it was |
| GameSettings.MinimalKeepsSound | Whiskers/Offsets/GameSettings.cs:218-253 | the minimal preset does not touch the master-sound entry |
| GameSettings.MinimalIdempotent | Whiskers/Offsets/GameSettings.cs:218-253 | applying the preset twice is the same as applying it once |
| GameSettings.RestoreUndoesMinimal | Whiskers/Offsets/GameSettings.cs:103-253 | snapshot, preset, restore gives back exactly the entries there were, the sound entry and the entries outside the table included |
| GameSettings.CaptureOfMinimal | Whiskers/Offsets/GameSettings.cs:103-253 | a snapshot taken after the preset holds the preset's value in every property the preset writes |
| GameSettings.MinimalSnapshotIsNotLow | Whiskers/Offsets/GameSettings.cs:210-253 | a table holding the preset's values fails the "low" check, because the preset writes 0 where the check wants 3 and 4 |
| GameSettings.SystemConfig.constructor | Whiskers/Offsets/GameSettings.cs:105 | the system config holds the given entries |
| GameSettings.SystemConfig.GetSettings | Whiskers/Offsets/GameSettings.cs:103-149 | a present table receives the snapshot of the entries, each property from its own entry; a null table is left alone |
| GameSettings.SystemConfig.RestoreSettings | Whiskers/Offsets/GameSettings.cs:154-202 | a present table is written back so that a new snapshot equals it and the master-sound flag (the same entry the game config reads) becomes non-zero exactly when the table's `SoundEnabled` is; a null table changes nothing; the table's entries stay present |
| GameSettings.RestoreSetsMasterFlag | Whiskers/Offsets/GameSettings.cs:200 | restoring a table sets the master-sound flag to the table's `SoundEnabled`, and leaves the voice and effects flags and the volume as they were |
| GameSettings.EntryOf | Whiskers/Offsets/GameSettings.cs:147 | the System section's master-sound option is the one entry of the system config that the snapshot keeps as `SoundEnabled`; the volume, voice and effects options are outside the table |
| GameSettings.EntryOfInjective | Whiskers/Offsets/GameSettings.cs:262-312 | the four sound options name four different entries |
| GameSettings.CaptureOfOutsideWrite | Whiskers/Offsets/GameSettings.cs:103-149 | writing an entry outside the snapshot table keeps the table's entries present and changes no snapshot |
| GameSettings.SystemConfig.SetMinimalGfx | Whiskers/Offsets/GameSettings.cs:218-253 | the entries become the minimal preset of the old entries |
| GameSettings.GameConfig.constructor | Whiskers/Offsets/GameSettings.cs:262-312 | the typed config is a view of the given system config, the one store the snapshot table reads and writes |
| GameSettings.SetSoundEnable | Whiskers/Offsets/GameSettings.cs:262-265 | with a config, the option's entry of the system config becomes 1 or 0 for the negation of `enabled` and reads back that way; no other entry changes; validity of the system config is kept; without a config nothing happens |
| GameSettings.GetSoundEnable | Whiskers/Offsets/GameSettings.cs:267-270 | true only when a config exists and holds the option's entry, and then exactly when that entry is not zero |
| GameSettings.SetMasterSoundEnable | Whiskers/Offsets/GameSettings.cs:262-265 | the master flag entry is stored negated and reads back negated, and the next snapshot captures it as `SoundEnabled`; no other entry changes |
| GameSettings.SetVoiceSoundEnable | Whiskers/Offsets/GameSettings.cs:290-298 | the voice flag entry is stored negated and reads back negated; no other entry changes and the snapshot is unaffected |
| GameSettings.SetEffectsSoundEnable | Whiskers/Offsets/GameSettings.cs:304-312 | the effects flag entry is stored negated and reads back negated; no other entry changes and the snapshot is unaffected |
| GameSettings.SetMasterSoundVolume | Whiskers/Offsets/GameSettings.cs:276-279 | the 16-bit volume is stored as its 32-bit unsigned reinterpretation, reads back as the same volume, and leaves every other entry and the snapshot unchanged |
| GameSettings.GetMasterSoundVolume | Whiskers/Offsets/GameSettings.cs:281-284 | -1 without a config or without the volume entry; otherwise a value whose unsigned reinterpretation is the stored number |
| GameSettings.StoredMinusOneLooksUnavailable | Whiskers/Offsets/GameSettings.cs:276-284 | a stored volume of -1 reads back exactly like a missing config |
| GameSettings.FirstWithVtable | Whiskers/Offsets/GameSettings.cs:390 | the index found has the vtable and no earlier agent does; none is found exactly when no agent has it |
| GameSettings.AgentManager.constructor | Whiskers/Offsets/GameSettings.cs:372-386 | the table lists every agent pointer in order with its index, or is empty when the framework lookup fails |
| GameSettings.AgentManager.FindAgentInterfaceByVtable | Whiskers/Offsets/GameSettings.cs:390 | the first agent with the vtable; an error exactly when no agent has it |
| GameSettings.OptionOf | Whiskers/Offsets/GameSettings.cs:109-147 | the config entry each of the 32 snapshot properties is read from, and written back to by the restore |
| GameSettings.HasTableEntries | Whiskers/Offsets/GameSettings.cs:109-147 | every config entry the snapshot reads is present |
| GameSettings.VarTableValues.Get | Whiskers/Offsets/GameSettings.cs:16-51 | the value one named property of the snapshot table holds |
| GameSettings.Capture | Whiskers/Offsets/GameSettings.cs:109-147 | the snapshot of the entries: each of the 32 properties holds its own entry's value |
| GameSettings.MinimalValue | Whiskers/Offsets/GameSettings.cs:222-252 | the value the minimal preset writes into each table property's entry, and none for `SoundEnabled`, which the preset does not write |
| GameSettings.IsLow | Whiskers/Offsets/GameSettings.cs:210-213 | the six properties the check reads hold the preset's values: object quantity 4, wet water 0, occlusion culling 1, reflections 3, grass 3 and SSAO 4 |
| GameSettings.CheckLowSettings | Whiskers/Offsets/GameSettings.cs:210-213 | true exactly when a snapshot table exists and its values pass `IsLow` |
| GameSettings.FlagValue | Whiskers/Offsets/GameSettings.cs:262-265 | a flag is stored as 1 for true and 0 for false |
| GameSettings.StoredFlag | Whiskers/Offsets/GameSettings.cs:267-270 | a flag reads as true exactly when its entry exists and is not zero |
| GameSettings.StoredVolume | Whiskers/Offsets/GameSettings.cs:281-284 | the master volume entry read as a signed 32-bit value, or -1 when there is no such entry |
| GameSettings.GetMasterSoundEnable | Whiskers/Offsets/GameSettings.cs:267-270 | the master flag: false without a config, otherwise the stored flag of `IsSndMaster` |
| GameSettings.GetVoiceSoundEnable | Whiskers/Offsets/GameSettings.cs:295-298 | the voice flag: false without a config, otherwise the stored flag of `IsSndVoice` |
| GameSettings.GetEffectsSoundEnable | Whiskers/Offsets/GameSettings.cs:309-312 | the effects flag: false without a config, otherwise the stored flag of `IsSndSe` |
| Numeric.ToUInt32 | Whiskers/Offsets/GameSettings.cs:278 | the cast keeps the value modulo 2^32 |
| Numeric.ToInt32 | Whiskers/Offsets/GameSettings.cs:283 | the cast keeps the value modulo 2^32 and keeps values below 2^31 unchanged |
| Numeric.Int16ThroughUInt32 | Whiskers/Offsets/GameSettings.cs:276-284 | a short stored as `uint` and read back as `int` is the same short |
| Numeric.ToUInt64 | Whiskers/Offsets/PerformActions.cs:62 | the `(ulong)` cast keeps the value modulo 2^64 and leaves a value already in range unchanged |
| Chat.EncodeScalar | Whiskers/GameFunctions/Chat.cs:114 | a character is encoded in one to four UTF-8 bytes, and in one exactly when it is ASCII |
| Chat.Utf8Length | Whiskers/GameFunctions/Chat.cs:114 | a string's UTF-8 encoding has between one and four bytes per character, and is empty exactly when the string is |
| Chat.Utf8OfAscii | Whiskers/GameFunctions/Chat.cs:114 | an ASCII string is encoded byte for byte |
| Chat.ValidateMessage | Whiskers/GameFunctions/Chat.cs:112-126 | each error happens exactly in its own case, in the source's order: empty message, more than 500 UTF-8 bytes, missing sanitiser, sanitiser changing the UTF-16 length; on success the bytes are the message's UTF-8 encoding, 1 to 500 of them |
| Chat.FiveHundredBytesAccepted | Whiskers/GameFunctions/Chat.cs:115-121 | a message of exactly 500 bytes that the sanitiser keeps is accepted (the bound is inclusive) |
| Chat.ChatPayload.constructor | Whiskers/GameFunctions/Chat.cs:178-188 | the buffer is 30 bytes longer than the message, holds the message followed by a 0 byte, the length field counts the terminator, and the game reads back exactly the message |
| Chat.ChatBox.constructor | Whiskers/GameFunctions/Chat.cs:47-61 | the chat box starts with the entry points found by the signature scans and nothing delivered |
| Chat.ChatBox.SanitiseText | Whiskers/GameFunctions/Chat.cs:144-160 | fails, with the missing-signature error, exactly when the sanitiser was not found |
| Chat.ChatBox.SendMessageUnsafe | Whiskers/GameFunctions/Chat.cs:76-92 | fails exactly when the chat-box function was not found, delivering nothing; otherwise the bytes reach the chat box |
| Chat.ChatBox.SendMessageInternal | Whiskers/GameFunctions/Chat.cs:112-129 | the message reaches the chat box as its UTF-8 bytes exactly when it passes every check and the chat-box function exists; otherwise the first failing check is reported and nothing is delivered |
| Chat.Utf8 | Whiskers/GameFunctions/Chat.cs:114 | the UTF-8 bytes of a string, character by character |
| Chat.Utf16Length | Whiskers/GameFunctions/Chat.cs:123 | the length of a string in UTF-16 code units: two for a character outside the basic plane, one otherwise |
| Chat.ChatPayload.Message | Whiskers/GameFunctions/Chat.cs:178-188 | the message as the game reads it from the buffer: the bytes before the terminator that the length counts |
| PerformActions.ConvertMiniKeyNumber | Whiskers/Offsets/PerformActions.cs:79-93 | a key of the 37-key keyboard (0 to 36) lands on one of the 13 mini-keyboard keys, and every key moves by a whole number of octaves (0, 12 or 24) |
| PerformActions.ConvertMiniKeyNumberWithShift | Whiskers/Offsets/PerformActions.cs:95-113 | gives the same key as the plain overload; starting from zero outputs, the reported offset is 12 times the reported octave shift (-1, 0 or 1) and accounts for the key's move |
| PerformActions.SendAction | Whiskers/Offsets/PerformActions.cs:26-41 | an odd parameter count fails first, then a null pointer; otherwise one callback fires with half as many pairs as parameters |
| PerformActions.AgentPerformance.constructor | Whiskers/Offsets/PerformActions.cs:163-187 | a fresh agent holds no note and no shift |
| PerformActions.Performance.constructor | Whiskers/Offsets/PerformActions.cs:12-24 | starts with the open windows and the agent given and no callback sent |
| PerformActions.Performance.TargetWindowPtr | Whiskers/Offsets/PerformActions.cs:115-133 | the mini window is preferred, then the wide one; none exactly when neither is open; mini mode exactly when the mini window is chosen |
| PerformActions.Performance.KeyCallback | Whiskers/Offsets/PerformActions.cs:51-77 | a key callback exists exactly when a performance window is open, goes to that window with two pairs and starts with 3, the action, 4 |
| PerformActions.Performance.PressShift | Whiskers/Offsets/PerformActions.cs:51-66 | the offset is 12 times the octave shift, which is -1, 0 or 1; on the wide keyboard both are 0 |
| PerformActions.Performance.SendActionByName | Whiskers/Offsets/PerformActions.cs:43-49 | false exactly when the window is not open; with an even parameter count it never throws; a callback is recorded only on true |
| PerformActions.Performance.PressKey | Whiskers/Offsets/PerformActions.cs:51-66 | succeeds exactly when a performance window is open, then sends the press callback and reports the shift; otherwise nothing changes |
| PerformActions.Performance.ReleaseKey | Whiskers/Offsets/PerformActions.cs:68-77 | succeeds exactly when a performance window is open, then sends the release callback; otherwise nothing is sent |
| PerformActions.Performance.GuitarSwitchTone | Whiskers/Offsets/PerformActions.cs:135-142 | succeeds exactly when the tone window is open, sending the tone as the fourth value |
| PerformActions.Performance.BeginReadyCheck | Whiskers/Offsets/PerformActions.cs:144 | succeeds exactly when the metronome window is open, sending 3, 2, 2, 0 |
| PerformActions.Performance.ConfirmBeginReadyCheck | Whiskers/Offsets/PerformActions.cs:145 | succeeds exactly when the ready-check window is open, sending one pair 3, 2 |
| PerformActions.Performance.ConfirmReceiveReadyCheck | Whiskers/Offsets/PerformActions.cs:146 | succeeds exactly when the receive window is open, sending one pair 3, 2 |
| PerformActions.Performance.PlayNote | Whiskers/Offsets/PerformActions.cs:163-187 | note on: the held note is released first when it is this note, then the note is pressed and recorded as held with its shift; note off: only the held note (or any note without an agent) is released, after which no note is held |
| PerformActions.AgentPerformance.NotePressed | Whiskers/Offsets/InterfaceAgents.cs:65 | a note is pressed exactly when the current note is not the "none" value -100 |
| PerformActions.AgentPerformance.NoteNumber | Whiskers/Offsets/InterfaceAgents.cs:66 | the note currently pressed |
| OffsetManager.TrimEntriesRemoveEmpty | Whiskers/Offsets/OffsetManager.cs:25 | never more pieces than there were; every kept piece is non-empty with no white space at either end |
| OffsetManager.TrimEntriesKeepsOut | Whiskers/Offsets/OffsetManager.cs:25 | trimming never brings in the separator, so pieces free of it become tokens |
| OffsetManager.TrimEntriesOfTokens | Whiskers/Offsets/OffsetManager.cs:25 | pieces that are already tokens pass through unchanged |
| OffsetManager.SplitTokens | Whiskers/Offsets/OffsetManager.cs:25 | the split with trimmed, non-empty entries yields only tokens free of the separator |
| OffsetManager.WidenWildcards | Whiskers/Offsets/OffsetManager.cs:26 | one token per token: "?" becomes "??" and every other token is kept |
| OffsetManager.SignatureTokens | Whiskers/Offsets/OffsetManager.cs:24-26 | the normalised signature is a single-space join of tokens, none of which is the one-character wildcard |
| OffsetManager.JoinOfTokens | Whiskers/Offsets/OffsetManager.cs:25 | joining tokens with single spaces gives no space at either end, never two spaces in a row, and the empty string only for no tokens |
| OffsetManager.NormalisedShape | Whiskers/Offsets/OffsetManager.cs:24-26 | a normalised signature has no space at either end and no double space, and splitting it on spaces gives its tokens back |
| OffsetManager.NormaliseIdempotent | Whiskers/Offsets/OffsetManager.cs:24-26 | normalising an already normalised signature changes nothing |
| OffsetManager.Resolve | Whiskers/Offsets/OffsetManager.cs:22-59 | an unknown attribute kind is an out-of-range error; a success holds the scanned address plus the attribute's offset, as a structure exactly for offset attributes; every error names its property |
| OffsetManager.Failures | Whiskers/Offsets/OffsetManager.cs:19-59 | at most one exception per property, and none exactly when every property resolves |
| OffsetManager.AppliedValues | Whiskers/Offsets/OffsetManager.cs:20-60 | with distinct names, every property that resolves holds its value and every other name keeps its old value: one failure never stops the others |
| OffsetManager.Offsets.constructor | Whiskers/Offsets/OffsetManager.cs:16-17 | no property is set before setup |
| OffsetManager.AppliedResolved | Whiskers/Offsets/OffsetManager.cs:20-60 | with distinct names, a property that resolves holds its own resolved value once every property is set |
| OffsetManager.AppliedUntouched | Whiskers/Offsets/OffsetManager.cs:20-60 | a name that no resolving property carries keeps its old value, or stays absent |
| OffsetManager.SetupStep | Whiskers/Offsets/OffsetManager.cs:20-60 | one more property adds its value when it resolves and appends its exception when it does not, and nothing else |
| OffsetManager.Offsets.Setup | Whiskers/Offsets/OffsetManager.cs:14-66 | every property is set as the loop sets it, and setup fails with all the collected exceptions, in order, exactly when there was one |
| OffsetManager.IsToken | Whiskers/Offsets/OffsetManager.cs:25-26 | a token of a normalised signature: not empty, without the separator, and not white at either end |
| OffsetManager.NormaliseSignature | Whiskers/Offsets/OffsetManager.cs:25-26 | the signature split on spaces into trimmed non-empty tokens, each "?" widened to "??", joined again with single spaces |
| OffsetManager.ScanBase | Whiskers/Offsets/OffsetManager.cs:28-39 | without a scanner the address is 0; otherwise a static-address property resolves its normalised signature as a static address and every other property scans the text for it |
| OffsetManager.Applied | Whiskers/Offsets/OffsetManager.cs:20-60 | the property values after each property in turn is set to what it resolves to; a property that fails to resolve keeps its value |
| Misc.FirstEntrance | Whiskers/Utils/Misc.cs:19-41 | the index found is a targetable entrance within `float.MaxValue` of the player, and no earlier object qualifies; none exactly when the table or the player is absent or no object qualifies |
| Misc.GetNearestEntrance | Whiskers/Utils/Misc.cs:14-46 | returns the first qualifying entrance in table order with its distance (below `float.MaxValue`), or nothing with distance `float.MaxValue` |
| Misc.IsEntrance | Whiskers/Utils/Misc.cs:23 | an object is an entrance when it is targetable and its name matches an entrance pattern |
| Misc.Accepted | Whiskers/Utils/Misc.cs:23-30 | an entrance is accepted when its distance to the player is below `float.MaxValue`, the best distance the scan starts from |
| GameUi.ToAtkValue | Whiskers/Utils/AutoSelect.cs:117-148 | every supported value keeps its runtime type; booleans become the byte 1 or 0; strings become their UTF-8 bytes with a 0 terminator; any other type is an error |
| GameUi.GenerateCallback | Whiskers/Utils/AutoSelect.cs:108-163 | a null addon fails first; it succeeds exactly when every value is of a supported type, then it fires on the addon with the count as `ushort` and each value converted in order; one unsupported value aborts before anything is fired |
| GameUi.UiHost.constructor | Whiskers/Utils/AutoSelect.cs:100-106 | no callback fired and no addon closed yet |
| GameUi.UiHost.SelectYes | Whiskers/Utils/AutoSelect.cs:100-106 | true exactly for a present addon, which is answered with the single int 0 and then closed; a null addon changes nothing |
| GameUi.OneLine | Whiskers/Utils/AutoSelect.cs:167-168 | the joined text of the text payloads, character for character, with every line break turned into a space, so it holds no line break |
| GameUi.TrimIsInfix | Whiskers/Utils/AutoSelect.cs:168 | the trimmed text is a slice of the text it was trimmed from |
| GameUi.GetSeStringText | Whiskers/Utils/AutoSelect.cs:165-170 | the slice of the one-line text left after trimming: every character cut from either side is white space, its own ends are not, and it holds no line break |
| GameUi.ParseCharacter | Whiskers/GameFunctions/Party.cs:59-60 | a message with fewer than two ';' pieces is an index error; a second piece that is not a 16-bit unsigned number is a conversion error; otherwise the first piece and the number |
| GameUi.CharacterRoundTrip | Whiskers/GameFunctions/Party.cs:59-60 | a name without ';' followed by ';' and a world id as integer formatting writes it reads back as that name and id |
| GameUi.TextPieces | Whiskers/Utils/AutoSelect.cs:167 | the texts of the text payloads, in order; other payloads give nothing |
| GameUi.StartsWith | Whiskers/GameFunctions/Party.cs:80 | true exactly when the prefix is no longer than the name and the name begins with it |
| PartyAutoAccept.MatchedCategory | Whiskers/Utils/AutoSelect.cs:57-97 | the first pattern list, in the source's order, that matches the prompt; none exactly when no list matches |
| PartyAutoAccept.LfgFirst | Whiskers/Utils/AutoSelect.cs:57-62 | a prompt matching the LFG patterns is answered as LFG whatever else it matches |
| PartyAutoAccept.AutoSelectYes.constructor | Whiskers/Utils/AutoSelect.cs:24-27 | the listener is registered when the lifecycle service exists, and does not listen yet |
| PartyAutoAccept.AutoSelectYes.Dispose | Whiskers/Utils/AutoSelect.cs:29-32 | the listener is unregistered when the lifecycle service exists; listening is unchanged |
| PartyAutoAccept.AutoSelectYes.Enable | Whiskers/Utils/AutoSelect.cs:34-37 | listening is on; registration unchanged |
| PartyAutoAccept.AutoSelectYes.Disable | Whiskers/Utils/AutoSelect.cs:39-42 | listening is off; registration unchanged |
| PartyAutoAccept.AutoSelectYes.AddonSetup | Whiskers/Utils/AutoSelect.cs:46-98 | while listening, a present dialog whose prompt matches a category is answered Yes once and closed, and auto-accept is switched off; in every other case nothing is fired or closed and listening is unchanged |
| PartyAutoAccept.FlagsIndependent | Whiskers/GameFunctions/Party.cs:18-22 | setting one accept flag sets it and leaves the other as it was; no flag is set in an empty lock |
| PartyAutoAccept.Party.constructor | Whiskers/GameFunctions/Party.cs:24-33 | no listener, an empty lock, no calls |
| PartyAutoAccept.Party.Initialize | Whiskers/GameFunctions/Party.cs:35-38 | a fresh listener that does not listen yet |
| PartyAutoAccept.Party.Dispose | Whiskers/GameFunctions/Party.cs:40-44 | the listener is disposed and dropped |
| PartyAutoAccept.Party.ClearFlags | Whiskers/GameFunctions/Party.cs:48 | no accept flag is set afterwards |
| PartyAutoAccept.Party.SetFlag | Whiskers/GameFunctions/Party.cs:46-50 | the flag is set and the other flag is unchanged |
| PartyAutoAccept.Party.EnableAddon | Whiskers/GameFunctions/Party.cs:56 | a present listener listens afterwards |
| PartyAutoAccept.Party.PartyInvite | Whiskers/GameFunctions/Party.cs:52-67 | an empty message only switches auto-accept on; otherwise the message is read as "name;world" and that character is invited, or the read fails and nobody is invited |
| PartyAutoAccept.Party.AcceptPartyInviteEnable | Whiskers/GameFunctions/Party.cs:69-72 | a present listener listens afterwards |
| PartyAutoAccept.Party.PromoteCharacter | Whiskers/GameFunctions/Party.cs:74-86 | auto-accept is switched on, and exactly the first member whose name starts with the message is promoted; nobody when no name does |
| PartyAutoAccept.Party.EnterHouse | Whiskers/GameFunctions/Party.cs:88-95 | the entrance the scan returns is used exactly when it is closer than 4.8 (as a single-precision value), and auto-accept is switched on in every case |
| PartyAutoAccept.Party.Teleport | Whiskers/GameFunctions/Party.cs:97-103 | true opens the teleport menu; false only switches auto-accept on |
| PartyAutoAccept.Party.PartyLeave | Whiskers/GameFunctions/Party.cs:105-113 | auto-accept is switched on and the "/leave" line is scheduled when the framework service exists |
| PartyAutoAccept.Party.AcceptDisable | Whiskers/GameFunctions/Party.cs:115-119 | a present listener stops listening |
| PartyAutoAccept.FlagBits | Whiskers/GameFunctions/Party.cs:17-21 | each accept flag is a single bit, 1 or 2 |
| PartyAutoAccept.IsFlagSet | Whiskers/GameFunctions/Party.cs:46 | a flag is set when all of its bits are set in the lock byte |
| PartyAutoAccept.Party.IsAcceptFlagSet | Whiskers/GameFunctions/Party.cs:46 | whether the flag is set in the party's lock byte |
| OffsetsParty.PartyState.constructor | Whiskers/Offsets/Party.cs:22-24 | no listener, no registration, no calls |
| OffsetsParty.PartyState.Register | Whiskers/Offsets/Party.cs:91-94 | one more registration of the handler when the lifecycle service exists |
| OffsetsParty.PartyState.Unregister | Whiskers/Offsets/Party.cs:96-99 | every registration of the handler is removed when the lifecycle service exists |
| OffsetsParty.PartyState.AcceptPartyInviteEnable | Whiskers/Offsets/Party.cs:37-44 | afterwards a listener exists and is registered exactly once; a repeated call registers nothing more |
| OffsetsParty.PartyState.AcceptDisable | Whiskers/Offsets/Party.cs:66-72 | afterwards no listener exists and none is registered |
| OffsetsParty.PartyState.PartyInvite | Whiskers/Offsets/Party.cs:25-35 | an empty message only creates the listener; otherwise the message is read as "name;world" and that character is invited, or the read fails and nobody is invited; the listener is untouched |
| OffsetsParty.PartyState.PromoteCharacter | Whiskers/Offsets/Party.cs:46-64 | does nothing while a listener exists; otherwise creates and registers one and promotes exactly the first member whose name starts with the message |
| OffsetsParty.PartyState.AddonSetup | Whiskers/Offsets/Party.cs:101-121 | with no listening gate, a present dialog whose prompt matches the LFG or the promote patterns is answered Yes once and closed, and the listener is dropped; otherwise nothing changes |
| Movement.CanOverride | Whiskers/Utils/Movement.cs:95-119 | never while a blocking condition is raised, nor without a player or a desired position; otherwise a direction exactly when the desired position is farther than the precision minus 0.01, and then it is the vector from the player to that position |
| Movement.WalkInput.constructor | Whiskers/Utils/Movement.cs:56 | the walk input holds the values the original function produced |
| Movement.FlyInput.constructor | Whiskers/Utils/Movement.cs:16-26 | the fly input holds the values the original function produced |
| Movement.Arbitrate | Whiskers/Utils/Movement.cs:60-72 | no override without a direction; user input is reported exactly when there is a direction, input is not ignored and there is input; an override happens only when input is ignored or absent |
| Movement.OverrideMovement.constructor | Whiskers/Utils/Movement.cs:28-48 | input is not ignored, there is no user-input action and no target, the precision is 0.5 |
| Movement.OverrideMovement.ReportUserInput | Whiskers/Utils/Movement.cs:65 | the user-input action runs once when it is set |
| Movement.OverrideMovement.RmiWalkDetour | Whiskers/Utils/Movement.cs:56-73 | the walk input is replaced by the move direction exactly when overriding is decided and `bAdditiveUnk` is 0; user input is reported exactly when the decision says so; otherwise the input is kept |
| Movement.OverrideMovement.RmiFlyDetour | Whiskers/Utils/Movement.cs:75-93 | left, forward and up are replaced exactly when overriding is decided; user input is reported exactly when the decision says so; turn and the other fields always keep their values |
| Geometry.Sub | Whiskers/Utils/Movement.cs:116 | the difference of two positions, component by component |
| Geometry.LengthSquared | Whiskers/Utils/Movement.cs:118 | the squared length of a vector |
| Geometry.HorizontalLengthSquared | Whiskers/GameFunctions/MovementFactory.cs:109-111 | the squared length once the vertical component is set to zero |
| Geometry.LengthGreater | Whiskers/Utils/Movement.cs:118 | a vector is longer than a bound, stated without a square root: always for a negative bound |
| Movement.Blocking | Whiskers/Utils/Movement.cs:99-110 | the condition flags under which the input is never overridden: between areas, in a cutscene, in an event, at a summoning bell, or flag 57 |
| MovementFactory.Camera.constructor | Whiskers/GameFunctions/MovementFactory.cs:26 | a new camera helper is switched off |
| MovementFactory.Step | Whiskers/GameFunctions/MovementFactory.cs:106-148 | gives up exactly when the player is stuck with no rounds left; arrives exactly when it does not give up and the target is within the precision; otherwise a stuck tick uses up one round and a moving tick resets the count to 4 |
| MovementFactory.Poll | Whiskers/GameFunctions/MovementFactory.cs:101-153 | the loop ends at or before the last tick, and it can give up or arrive only with the movement override present |
| MovementFactory.PollEnds | Whiskers/GameFunctions/MovementFactory.cs:101-153 | the loop runs out of ticks exactly when it is still running; a cancellation or a vanished player ends it at that very tick; every earlier tick had neither |
| MovementFactory.PollAt | Whiskers/GameFunctions/MovementFactory.cs:101-153 | the loop from tick i is that tick's decision followed by the loop from tick i + 1 |
| MovementFactory.GiveUpOnFifthStuckTick | Whiskers/GameFunctions/MovementFactory.cs:91-130 | a player standing still away from the target is given up on at the fifth tick (index 4) |
| MovementFactory.StuckRun | Whiskers/GameFunctions/MovementFactory.cs:111-127 | with n rounds left, n + 1 standing-still ticks end in giving up at index n |
| MovementFactory.MovingNeverGivesUp | Whiskers/GameFunctions/MovementFactory.cs:111-130 | a player that moves more than 0.2 every tick is never given up on, whatever the round count |
| MovementFactory.MovementFactoryState.constructor | Whiskers/GameFunctions/MovementFactory.cs:23-35 | a fresh camera and movement override, both off, the target at the origin |
| MovementFactory.MovementFactoryState.Initialize | Whiskers/GameFunctions/MovementFactory.cs:39-43 | the target position and rotation are set and nothing else changes |
| MovementFactory.MovementFactoryState.Move | Whiskers/GameFunctions/MovementFactory.cs:55-70 | following is stopped, the override aims at the target with precision 0.05 (single precision), and one move task is scheduled when the framework exists |
| MovementFactory.MovementFactoryState.MoveTo | Whiskers/GameFunctions/MovementFactory.cs:45-53 | nothing happens when the target is where the player stands; otherwise the target and rotation are set and a move starts |
| MovementFactory.MovementFactoryState.Cleanup | Whiskers/GameFunctions/MovementFactory.cs:78-85 | the camera and the override are switched off and keep their targets |
| MovementFactory.MovementFactoryState.StopMovement | Whiskers/GameFunctions/MovementFactory.cs:72-76 | cancellation is requested and the camera and the override are off |
| MovementFactory.MovementFactoryState.FaceAndStop | Whiskers/GameFunctions/MovementFactory.cs:115-122 | with a camera, it is turned to the desired rotation, the override is off, and after the pause the camera is off again |
| MovementFactory.MovementFactoryState.PollTicks | Whiskers/GameFunctions/MovementFactory.cs:101-153 | the loop's outcome and end tick are those of the recursive description of the loop |
| MovementFactory.MovementFactoryState.RunMoveTask | Whiskers/GameFunctions/MovementFactory.cs:89-158 | without a player nothing is polled; otherwise the outcome is the loop's, using the override's target and precision; giving up and arrival turn the camera to the desired rotation; every normal end leaves the camera and the override off |
| MovementFactory.MovementFactoryState.Dispose | Whiskers/GameFunctions/MovementFactory.cs:160-175 | the camera and the override are switched off and dropped |
| MovementFactory.Stuck | Whiskers/GameFunctions/MovementFactory.cs:109-111 | the character counts as stuck when it moved horizontally no more than 0.2 since the last poll |
| MovementFactory.Reached | Whiskers/GameFunctions/MovementFactory.cs:133-135 | the target counts as reached when there is one and the horizontal distance to it is within the precision |
| FollowSystem.FirstNamed | Whiskers/GameFunctions/FollowSystem.cs:38 | the index of the first object with exactly the name, every earlier object having another name; None exactly when no object has it |
| FollowSystem.GetGameObjectFromName | Whiskers/GameFunctions/FollowSystem.cs:34-46 | a found object has the name, is a player and comes from the world; it is the first object of that name, and when such a first object exists it is found exactly when it is a player of the world; nothing is found without an object table |
| FollowSystem.ShadowedByEarlierName | Whiskers/GameFunctions/FollowSystem.cs:38-42 | a matching player is not found when an earlier object of the same name is not a player of the world |
| FollowSystem.FollowSystemState.constructor | Whiskers/GameFunctions/FollowSystem.cs:15-32 | the target name and world are stored, following is off, the distance is 2, a fresh override has no desired position, and the handler is subscribed exactly when the framework exists |
| FollowSystem.FollowSystemState.Stop | Whiskers/GameFunctions/FollowSystem.cs:148-152 | the override has no desired position |
| FollowSystem.FollowSystemState.MoveTo | Whiskers/GameFunctions/FollowSystem.cs:63-69 | the override aims at the position with the given precision |
| FollowSystem.FollowSystemState.StopFollowing | Whiskers/GameFunctions/FollowSystem.cs:76-80 | following is off; the desired position is cleared when it was following and untouched otherwise |
| FollowSystem.FollowSystemState.GetFollowTargetObject | Whiskers/GameFunctions/FollowSystem.cs:48-61 | the stored target is the lookup result, the answer says whether it was found, and a missing target clears the desired position only when following, leaving the following flag set |
| FollowSystem.FollowSystemState.OnGameFrameworkUpdate | Whiskers/GameFunctions/FollowSystem.cs:71-139 | follow off, an empty target name or a fault stop following; no local player changes nothing; otherwise the target is looked up, and a found target farther than distance + 0.1 and nearer than 100 is followed with that precision while any other found target stops following |
| FollowSystem.FollowSystemState.StopAllMovement | Whiskers/GameFunctions/FollowSystem.cs:141-146 | follow and following are off and the desired position is cleared |
| FollowSystem.FollowSystemState.Dispose | Whiskers/GameFunctions/FollowSystem.cs:154-159 | everything is stopped and the handler is unsubscribed when the framework exists |
| PipeRouting.ExitFound | Whiskers/Windows/MainWindow.cs:344-346 | the first `ExitGame` of a queue, the one that kills the process, is found at the index before which there is none |
| PipeRouting.Remaining | Whiskers/Windows/MainWindow.cs:200-204 | what stays queued is a suffix of the queue, and something stays only when the queue held an `ExitGame` |
| PipeRouting.ChatLine | Whiskers/Windows/MainWindow.cs:330-336 | the line ends with the message text; it is the bare text exactly when the channel code reads as the None channel, and otherwise starts with the channel's shortcut and a space |
| PipeRouting.ChatLineExamples | Whiskers/Windows/MainWindow.cs:330-336 | a message on the party code goes out as "/p text", on the say code as "/s text", and on a code outside the table as the bare text |
| PipeRouting.Initial | Whiskers/Windows/MainWindow.cs:53-54 | a new window is not manually disconnected, its timer waits 2000 ms and runs exactly when AutoConnect is on |
| PipeRouting.Tick | Whiskers/Windows/MainWindow.cs:104-118 | after a manual disconnect nothing happens; a connection request is made exactly when the client is neither connected nor connecting; the timer stops only for a connected client; the other flags stay |
| PipeRouting.ConnectButton | Whiskers/Windows/MainWindow.cs:392-398 | the timer runs at 500 ms, and the manual flag stays set only when it was set and AutoConnect is off |
| PipeRouting.DisconnectButton | Whiskers/Windows/MainWindow.cs:400-407 | a client known to be disconnected changes nothing; otherwise the manual flag is set, and the disconnection request is made only to a connected client |
| PipeRouting.OnDisconnected | Whiskers/Windows/MainWindow.cs:95-102 | with AutoConnect off nothing changes; with it on the timer runs again at 2000 ms |
| PipeRouting.NoReconnectAfterManualDisconnect | Whiskers/Windows/MainWindow.cs:95-118 | after a manual disconnect no run of timer ticks, pipe disconnections, Disconnect presses or Connect presses with AutoConnect off ever asks to connect, and the manual flag stays set |
| PipeRouting.ConnectThenTickConnects | Whiskers/Windows/MainWindow.cs:392-398 | pressing Connect with AutoConnect on, then a tick with an idle client, asks to connect once |
| PipeRouting.IsExit | Whiskers/Windows/MainWindow.cs:344-346 | the message that kills the process: `ExitGame` |
| PipeRouting.Handle | Whiskers/Windows/MainWindow.cs:95-118 | the flags and requests after one event: a timer tick, the Connect or Disconnect button, or a pipe disconnection |
| PipeRouting.Run | Whiskers/Windows/MainWindow.cs:95-118 | the flags after a run of events, and every request made along the way, in order |
| Windows.WithBool | Whiskers/Windows/MainWindow.cs:241 | a text that `Convert.ToBoolean` reads as `b` makes the one call for `b`; any other text makes only the logged error |
| Windows.RenderSize | Whiskers/Windows/MainWindow.cs:243-245 | the resize to the two parsed sizes exactly when both `;`-separated fields exist and parse as `uint`; otherwise only the logged error |
| Windows.VolumeCalls | Whiskers/Windows/MainWindow.cs:249-257 | -1 asks for the channel's volume and state to be reported, exactly; a number that does not parse is exactly the logged error; any stored volume is the parsed value of that channel and never -1 |
| Windows.InviteCalls | Whiskers/Windows/MainWindow.cs:217-219 | the invite of the message is always the first call, and an error is logged after it exactly when the message is neither empty nor "name;world" |
| Windows.FollowCalls | Whiskers/Windows/MainWindow.cs:234-239 | an empty message stops following; a "name;world" message follows that character; any other message only logs the error |
| Windows.SoundCalls | Whiskers/Windows/MainWindow.cs:246-328 | a sound-state message enables or disables its channel as its boolean says, or logs the error; a volume message makes the calls of the volume rule |
| Windows.PartyCalls | Whiskers/Windows/MainWindow.cs:217-239 | each party message makes its own host call: the invite, accepting invites, the promotion, stopping following then entering the house, stopping following then teleporting (or the logged error), or the follow calls; any other type makes none |
| Windows.GameCalls | Whiskers/Windows/MainWindow.cs:207-216 | each other queued message makes its own host call: the action, the two ready-check calls, the ready-check reply, the graphics switch, the resize, the chat line, logout, shutdown or the kill; a text that does not convert only logs the error |
| Windows.DispatchWellFormed | Whiskers/Windows/MainWindow.cs:202-352 | a failure is always the last call a message makes, no message stores a volume of -1, and entering a house or teleporting stops following first |
| Windows.QueuedExactlyHandled | Whiskers/Windows/MainWindow.cs:145-175 | a message type is queued exactly when `Update` has a case that acts on it |
| Windows.DrainSplit | Whiskers/Windows/MainWindow.cs:200-353 | the drain is first-in first-out and a failing message does not stop the next: two queues drain one after the other when the first has no `ExitGame` |
| Windows.DrainCallsComeFromMessages | Whiskers/Windows/MainWindow.cs:200-353 | every call of a drain is a call of one of the drained messages |
| Windows.DrainNeverStoresMinusOne | Whiskers/Windows/MainWindow.cs:249-328 | however many messages fail, a drain never stores a volume of -1 |
| Windows.FollowRequest | Whiskers/Windows/MainWindow.cs:234-239 | a follow message "name;world" follows that character of that world; an empty one stops following |
| Windows.DrainCalls | Whiskers/Windows/MainWindow.cs:200-353 | the loop's calls are those of draining the queue, and it reports a kill exactly when the queue holds an `ExitGame` |
| Windows.MainWindow.constructor | Whiskers/Windows/MainWindow.cs:38-57 | the reconnect flags of a new window, an empty queue and nothing done |
| Windows.MainWindow.SetAutoConnect | Whiskers/Windows/MainWindow.cs:384-390 | the checkbox changes AutoConnect and nothing else |
| Windows.MainWindow.MessageReceived | Whiskers/Windows/MainWindow.cs:120-177 | a null or dropped message changes nothing; a message `Update` handles is appended to the queue; notes and tone changes are played at once; the queue keeps only queued types |
| Windows.MainWindow.Update | Whiskers/Windows/MainWindow.cs:197-354 | the calls made are those of draining the queue in order; the process is killed exactly when an `ExitGame` was queued; only the messages behind it stay queued |
| Windows.MainWindow.ReconnectTimerElapsed | Whiskers/Windows/MainWindow.cs:104-118 | the flags and the requests move as the tick rule says; nothing else changes |
| Windows.MainWindow.PipeClientDisconnected | Whiskers/Windows/MainWindow.cs:95-102 | the flags move as the disconnection rule says; nothing else changes |
| Windows.MainWindow.Connect | Whiskers/Windows/MainWindow.cs:392-398 | the flags move as the Connect rule says; nothing else changes |
| Windows.MainWindow.Disconnect | Whiskers/Windows/MainWindow.cs:400-407 | the flags and the requests move as the Disconnect rule says; nothing else changes |
| Windows.MainWindow.Dispose | Whiskers/Windows/MainWindow.cs:179-195 | the window is manually disconnected, so no later tick does anything, and a present client is asked to disconnect |
| Windows.StateChannel | Whiskers/Windows/MainWindow.cs:246-328 | the sound channel a `…SoundState` message type sets, and none for any other type |
| Windows.VolumeChannel | Whiskers/Windows/MainWindow.cs:246-328 | the sound channel a `…Volume` message type sets or queries, and none for any other type |
| Windows.Classify | Whiskers/Windows/MainWindow.cs:136-176 | note and tone messages are handled at once; instrument, ensemble, ready-check, party, graphics, render-size, sound, chat, logout, shutdown and exit messages are queued; everything else is dropped |
| Windows.ImmediateCalls | Whiskers/Windows/MainWindow.cs:136-144 | a note message plays its parsed 16-bit note, on or off by its type, and a tone change switches to its parsed 32-bit tone; a number that does not parse makes no call |
| Windows.IsPartyMessage | Whiskers/Windows/MainWindow.cs:217-239 | the six party message types |
| Windows.Dispatch | Whiskers/Windows/MainWindow.cs:202-352 | the host calls of one queued message: those of its sound, party or game case |
| Windows.Drain | Whiskers/Windows/MainWindow.cs:200-352 | the calls of handling the queued messages in order, stopping after the first `ExitGame`, which kills the process |
| PluginWindow.ImmediateCalls | Whiskers/PluginUI.cs:129-137 | a note message plays its parsed note, on or off as its type says, and a tone change switches to its parsed tone; there is a call exactly when the text converts |
| PluginWindow.FlagAfterSet | Whiskers/Offsets/GameSettings.cs:261-311 | a sound flag reads back negated after it is set (false without a sound config); setting one flag leaves the other flags and, unless it is the volume, the volume alone; any flag but the master one keeps every entry of the snapshot table |
| PluginWindow.VolumeAfterSet | Whiskers/Offsets/GameSettings.cs:276-284 | the master volume reads back as the value set (-1 without a sound config); setting it leaves the flags and every entry of the snapshot table alone |
| PluginWindow.GfxApply | Whiskers/PluginUI.cs:274-286 | the settings stay consistent with the snapshot table, whether there is a sound config is unchanged, and the table exists afterwards exactly when it did before |
| PluginWindow.Lowered | Whiskers/PluginUI.cs:275-280 | lowering the graphics keeps the settings consistent and leaves the presence of the sound config and of the table unchanged |
| PluginWindow.Restored | Whiskers/PluginUI.cs:281-285 | restoring keeps the settings consistent and leaves the table as it is; without a table nothing changes |
| PluginWindow.GfxApplySound | Whiskers/PluginUI.cs:274-286 | lowering keeps every sound setting; restoring from a table sets the master flag to the table's `SoundEnabled` and keeps the other flags and the volume; a conversion failure is logged, otherwise the game is asked to apply its graphics settings |
| PluginWindow.StateApply | Whiskers/PluginUI.cs:287-289 | a sound-state message keeps the table, the presence of the sound config, and consistency with the table |
| PluginWindow.StateApplySound | Whiskers/PluginUI.cs:287-289 | the option's flag reads back negated and every other flag stays; the master flag is the table's `SoundEnabled` entry, so the next snapshot captures it, and any other flag keeps every table entry; a text that is not a boolean only logs |
| PluginWindow.VolumeApply | Whiskers/PluginUI.cs:290-300 | a volume message keeps the table, the presence of the sound config, and consistency with the table |
| PluginWindow.VolumeApplySound | Whiskers/PluginUI.cs:290-300 | -1 reports the four settings and changes nothing; another value reads back as itself; no flag and no table entry changes; a text that is not a number only logs |
| PluginWindow.Apply | Whiskers/PluginUI.cs:259-314 | every case keeps the settings consistent; only the graphics case touches the table, and the cases that touch no setting change nothing |
| PluginWindow.Step | Whiskers/PluginUI.cs:256-319 | one dequeued message keeps the settings consistent, and only `SetGfx` touches the table |
| PluginWindow.StepKeepsTable | Whiskers/PluginUI.cs:256-319 | only `SetGfx` and `MasterSoundState` write entries of the snapshot table: every other message keeps them all |
| PluginWindow.UnqueuedIgnored | Whiskers/PluginUI.cs:138-150 | a message type the window never queues has no case in the drain: no setting changes and nothing is called |
| PluginWindow.QueuedCallsSomething | Whiskers/PluginUI.cs:259-314 | every queued type other than the sound ones makes at least one call when drained |
| PluginWindow.Drain | Whiskers/PluginUI.cs:254-320 | draining a queue keeps the settings, whose master flag is the snapshot's `SoundEnabled` entry, consistent with the table |
| PluginWindow.DrainStopsAtExit | Whiskers/PluginUI.cs:307-309 | nothing queued behind the first `ExitGame` is ever handled |
| PluginWindow.FailureIsLoggedAndDrainGoesOn | Whiskers/PluginUI.cs:268-270 | an instrument id that does not convert logs one error, and the drain goes on with the next message as if it were not there |
| PluginWindow.DrainTwoGfx | Whiskers/PluginUI.cs:274-286 | two `SetGfx` messages drain as the first's effect followed by the second's |
| PluginWindow.GfxToggleRestores | Whiskers/PluginUI.cs:274-286 | "True" then "False" gives back every graphics entry, leaves the old values in the table and asks twice for the settings to be applied |
| PluginWindow.SecondLowOverwritesSnapshot | Whiskers/PluginUI.cs:275-280 | lowering twice overwrites the table with the minimal preset, so the restore that follows keeps the minimal entries |
| PluginWindow.NoTableNoRestore | Whiskers/PluginUI.cs:274-286 | without a snapshot table, "True" then "False" leaves the minimal preset in place |
| PluginWindow.VolumeSetThenQueried | Whiskers/PluginUI.cs:290-300 | a volume stored through the pipe is the one a following -1 query reports, with the master, voice and effects flags; -1 without a sound config |
| PluginWindow.VolumeThenQueryCalls | Whiskers/PluginUI.cs:290-300 | a set followed by a -1 query reports the settings as they are after the set |
| PluginWindow.MuteBetweenLowerAndRestoreIsUndone | Whiskers/PluginUI.cs:274-300 | lowering the graphics, muting, restoring and querying leaves every entry as it was before the lowering, with the table holding that snapshot, and reports the sound settings from before: the mute is undone by the restore |
| PluginWindow.RestoreAfterMute | Whiskers/PluginUI.cs:283 | the restore after a mute that followed the lowering writes back every entry, the master flag included |
| PluginWindow.RestoreOverwritesMasterEntry | Whiskers/Offsets/GameSettings.cs:200 | a restore rewrites the master-sound entry, so a value written there before it makes no difference |
| PluginWindow.DrainStep | Whiskers/PluginUI.cs:254-320 | one pass of the loop: draining from a position is handling the message there and draining from the next |
| PluginWindow.PluginUi.Current | Whiskers/PluginUI.cs:274-305 | the settings the drain sees, read from the one system config the game config views, are consistent exactly when the system config is |
| PluginWindow.PluginUi.constructor | Whiskers/PluginUI.cs:42-62 | the game config, when present, views the same system config as the graphics code; the reconnect flags of a new window; it is hidden, with an empty queue and nothing done |
| PluginWindow.PluginUi.SetAutoConnect | Whiskers/PluginUI.cs:192-198 | the checkbox changes AutoConnect and nothing else |
| PluginWindow.PluginUi.SetVisible | Whiskers/PluginUI.cs:33-38 | `Visible` changes and nothing else |
| PluginWindow.PluginUi.MessageReceived | Whiskers/PluginUI.cs:113-151 | a newer version disconnects for good, asks a present client to disconnect and logs that the plugin is out of date; notes and tone changes are played at once; the ten queued types are appended to the queue; a null or dropped message changes nothing |
| PluginWindow.PluginUi.HandleGfx | Whiskers/PluginUI.cs:274-286 | the settings and the calls are those of the graphics rule, the master flag of the game config included, and nothing else changes |
| PluginWindow.PluginUi.LowerGfx | Whiskers/PluginUI.cs:276-278 | the settings become the lowered settings: snapshot, then the minimal preset |
| PluginWindow.PluginUi.RestoreGfx | Whiskers/PluginUI.cs:283 | the settings become the restored settings, the master-sound entry of the one store included |
| PluginWindow.PluginUi.HandleState | Whiskers/PluginUI.cs:287-289 | the settings and the calls are those of the sound-state rule, written into the one system config, and nothing else changes |
| PluginWindow.PluginUi.HandleVolume | Whiskers/PluginUI.cs:290-300 | the settings and the calls are those of the volume rule, and nothing else changes |
| PluginWindow.PluginUi.HandleMessage | Whiskers/PluginUI.cs:256-319 | the settings and the calls are those of one step of the drain |
| PluginWindow.PluginUi.HandlePlain | Whiskers/PluginUI.cs:261-273 | the calls are those of the cases that touch no setting |
| PluginWindow.PluginUi.Draw | Whiskers/PluginUI.cs:171-321 | the settings and the calls are those of draining the queue; the process is killed exactly when an `ExitGame` was queued, and only the messages behind it stay queued |
| PluginWindow.PluginUi.DrainNext | Whiskers/PluginUI.cs:254-320 | the first message is dequeued and handled as one step of the drain; `ExitGame` kills the process |
| PluginWindow.PluginUi.ReconnectTimerElapsed | Whiskers/PluginUI.cs:97-111 | the flags and the requests move as the tick rule says; nothing else changes |
| PluginWindow.PluginUi.PipeClientDisconnected | Whiskers/PluginUI.cs:88-95 | the flags move as the disconnection rule says; nothing else changes |
| PluginWindow.PluginUi.Connect | Whiskers/PluginUI.cs:201-207 | the flags move as the Connect rule says; nothing else changes |
| PluginWindow.PluginUi.Disconnect | Whiskers/PluginUI.cs:210-218 | the flags and the requests move as the Disconnect rule says; nothing else changes |
| PluginWindow.PluginUi.Dispose | Whiskers/PluginUI.cs:153-169 | the window is manually disconnected, so no later tick does anything, and a present client is asked to disconnect |
| PluginWindow.Classify | Whiskers/PluginUI.cs:129-150 | version, note and tone messages are handled at once; the ten types the drain has cases for are queued; everything else is dropped |
| PluginWindow.Flag | Whiskers/Offsets/GameSettings.cs:267-270 | a sound flag as the settings hold it: false without a config, otherwise the stored flag |
| PluginWindow.Volume | Whiskers/Offsets/GameSettings.cs:281-284 | the master volume as the settings hold it: -1 without a config, otherwise the stored volume |
| PluginWindow.WithFlag | Whiskers/Offsets/GameSettings.cs:262-265 | the settings after a sound flag is set: the negated flag is stored; without a config nothing changes |
| PluginWindow.WithVolume | Whiskers/Offsets/GameSettings.cs:276-279 | the settings after the master volume is set: the 16-bit value is stored as unsigned; without a config nothing changes |
| PluginWindow.PlainCalls | Whiskers/PluginUI.cs:261-273 | the calls of the cases that touch no setting: chat sends the text, an instrument plays its parsed id or logs an error, the ensemble starts and confirms a ready check, the reply confirms one, and exit kills the process |
| PluginWindow.Report | Whiskers/PluginUI.cs:293-296 | the answer to a -1 volume query: the master volume, then the master, voice and effects flags |
| PluginWindow.EffectOf | Whiskers/PluginUI.cs:259-300 | what a queued message does: a graphics change exactly for `SetGfx`, a flag change on the master option exactly for `MasterSoundState`, a volume change or query for `MasterVolume`, plain calls otherwise |

## Left out

- The pipe itself, JSON and the handshake: the writes made on connecting
  (`pipeClient_Connected`) and the client statistics are not modelled. A
  `Pipe.Write` reply is a logged call.
- ImGui drawing: the windows' layout, the "Is connected" text, and
  `ConfigWindow`. The checkbox and the buttons are methods of their own, not
  tied to the window being visible.
- PluginWindow.PluginUi.Draw: does not model the Disconnect button's `return`
  inside `DrawMainWindow`, which skips that frame's drain. The next frame
  drains the queue as modelled.
- Configuration saving, `GameSettings.LoadConfig`/`SaveConfig` and the Erase
  buttons are file I/O and are not modelled.
- PluginWindow.PluginUi.MessageReceived: the version comparison is the boolean
  input `newerVersion`. A version text that does not parse throws out of the
  handler, and that is not modelled.
- A note or tone message whose text does not convert throws out of the pipe
  handler into the pipe library. The model makes no call and leaves the state
  unchanged.
- Killing the process (`ExitGame`) is the `exited` flag plus a logged call.
  Nothing after it runs.
- PluginWindow.GfxApply: `Whiskers.AgentConfigSystem?.ApplyGraphicSettings()`
  is logged even when that host agent is absent.
- Hooks, detours and signature scanning: `Hook<>` setup and
  `OverrideMovement.Dispose`'s unhooking are not modelled. The scanner is a
  function from signature to address.
- `PerformActions.MainModuleRva` enumerates process modules through the host
  and is not modelled. `PerformAction` and the `UIGlobals`/agent calls are
  logged calls.
- Floating point: positions, distances and angles are reals. Single-precision
  constants keep their exact single-precision values, but rounding in
  arithmetic is not modelled. `GetMoveDir`, the `Up` angle, `CameraUtil`'s
  per-frame clamp and `Angle` are host functions or not modelled.
- The entrance and party pattern lists of `LangStrings.cs` and the `Party`
  pattern lists are abstract predicates, one per category.
- MovementFactory: the task's `Task.Delay` pauses, the cancellation token
  source and the scheduling on the framework thread are a sequence of ticks, a
  flag and a counter of scheduled tasks. The loop's ticks are an input.
- The movement override's arbitration is stated for one call of a detour. How it plays out over several frames is not modelled.
- Chat.SendMessage defers `SendMessageInternal` to the next framework tick
  with `RunOnTick`. The model states what `SendMessageInternal` does, and
  `ChatPayload.Dispose`'s freeing of native memory is not modelled.
- The singletons' lazy construction and locking, and the reflection-based
  service injection of `Api`, are not modelled. A service the code reaches
  through `Api` is a parameter that may be absent.
- The `MainWindow` handlers call `FollowSystem.StopFollow`/`FollowCharacter`,
  `Misc.SetGameRenderSize`, `MiscGameFunctions` and the other sound channels'
  setters. `FollowSystem.cs`, `Misc.cs` and `MiscGameFunctions.cs` at the
  versions those handlers call are not part of this model, so these are logged
  calls.
- Windows.MainWindow.Update: the party messages (`Whiskers/Windows/MainWindow.cs:217-232`)
  and the master-sound messages (`:246-256`) call `Party.Instance` and
  `GameSettings.AgentConfigSystem`, which this project models as
  `PartyAutoAccept.Party` and the `GameSettings` sound setters. `Update` logs
  these calls rather than applying them to those objects: its contract is the
  drain of a per-message call list, and what each logged call then does to the
  party flags or the system config is the contract of the modelled member of
  the same name. The composition of the two is not stated.
- MovementFactory.MovementFactoryState.RunMoveTask: one move task at a time.
  `Move` replaces `_cancelMovementToken` without cancelling the running task
  (`Whiskers/GameFunctions/MovementFactory.cs:64-68`), so a second move leaves
  the first task polling, and the two tasks share `_round`, `_lastPos` and
  `Movement.Enabled`; one task's `FaceAndStop` or `Cleanup` can switch off the
  other's override, and `StopMovement` no longer reaches the old task. Neither
  overlap is modelled. With one task at a time, `_round` and `_lastPos` are
  touched only by its polling loop, so the model keeps them as the locals of
  `PollTicks` rather than as fields.
- MovementFactory.MovementFactoryState.RunMoveTask: a cancellation is seen at
  the top of a tick and ends in `Cleanup`. In the source a cancellation that
  lands inside one of the awaited `Task.Delay(…, token).ContinueWith(…, token)`
  pauses (`Whiskers/GameFunctions/MovementFactory.cs:120`, `:143` and `:152`)
  throws out of the task, so its `Cleanup` (`:157`) never runs; that path is
  not modelled.
- Windows.MainWindow.Update: `MessageReceived` runs on the pipe thread and
  `Update` drains the unsynchronised `Queue<T>` on the framework thread. The
  model treats the two as taking turns: a message that arrives while
  `while (Qt.Count > 0)` is draining would be drained in the same pass, and a
  racing `Enqueue`/`Dequeue` is not modelled.
- PluginWindow.PluginUi.Draw: the same holds for the older window. Its queue
  `_qt` is filled on the pipe thread and drained by `while (_qt.Count > 0)` in
  `Draw` on the framework thread; messages arriving during the drain and racing
  queue operations are not modelled.
- GameUi.StartsWith: compares ordinally, character by character. .NET's
  `string.StartsWith(string)`, used at `Whiskers/GameFunctions/Party.cs:80` and
  `Whiskers/Offsets/Party.cs:58`, compares with the current culture and
  ignores characters such as the soft hyphen U+00AD; culture rules are not
  modelled.
- Strings are sequences of Unicode scalar values, so a lone UTF-16 surrogate,
  which `Encoding.UTF8.GetBytes` turns into U+FFFD, cannot occur in the model.
- `OverrideMovement.enabled` (`movement.dfy`) does not exist in the
  `Whiskers/Utils/Movement.cs` of this model. `MovementFactory.cs` comes from a
  version whose override has an `Enabled` switch, and the model adds that
  field so the factory's uses of it can be stated.
- `Plugin.cs`, `IPCProvider.cs`, `Collector.cs` and `Configuration.cs` are
  host registration and persistence, and are not modelled.
