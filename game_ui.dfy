/**
 * The game UI the plugin drives: dialog addons, the values passed to their
 * callbacks, the text of a dialog, and the agent calls the party code makes.
 */
module GameUi {
  import opened Wrappers
  import opened Numeric
  import opened Text
  import Chat
  import opened Geometry

  /** An addon (a UI window) of the game, known by its identity. */
  type Addon = nat

  /** A value passed to `GenerateCallback`, by its runtime type. */
  datatype CallbackArg =
    | UIntArg(u: uint32)
    | IntArg(i: int32)
    | FloatArg(f: real)
    | BoolArg(b: bool)
    | StringArg(s: string)
    | OtherArg(typeName: string)

  /** A tagged `AtkValue`; a string value holds its null-terminated UTF-8 bytes. */
  datatype AtkValue =
    | UIntValue(u: uint32)
    | IntValue(i: int32)
    | FloatValue(f: real)
    | BoolValue(b: byte)
    | StringValue(bytes: seq<byte>)

  datatype CallbackError =
    | NullUnitBase                    // Exception("Null UnitBase")
    | UnsupportedType(typeName: string) // ArgumentException

  /** The conversion of one callback value: booleans become the byte 1 or 0. */
  function ToAtkValue(v: CallbackArg): (r: Result<AtkValue, CallbackError>)
    ensures r.Failure? <==> v.OtherArg?
    ensures v.BoolArg? ==> r == Success(BoolValue(if v.b then 1 else 0))
    ensures v.StringArg? ==> r.Success? && r.value.StringValue? && r.value.bytes == Chat.Utf8(v.s) + [0]
    ensures r.Success? ==> (r.value.UIntValue? <==> v.UIntArg?) && (r.value.IntValue? <==> v.IntArg?)
                           && (r.value.FloatValue? <==> v.FloatArg?) && (r.value.BoolValue? <==> v.BoolArg?)
  {
    match v
    case UIntArg(u) => Success(UIntValue(u))
    case IntArg(i) => Success(IntValue(i))
    case FloatArg(f) => Success(FloatValue(f))
    case BoolArg(b) => Success(BoolValue(if b then 1 else 0))
    case StringArg(s) => Success(StringValue(Chat.Utf8(s) + [0]))
    case OtherArg(t) => Failure(UnsupportedType(t))
  }

  /** A `FireCallback` on an addon: the value count as `ushort` and the values. */
  datatype Fired = Fired(addon: Addon, count: uint16, values: seq<AtkValue>)

  /**
   * `GenerateCallback`: converts every value into a freshly allocated array and
   * fires it; the first unsupported value aborts before anything is fired.
   */
  method GenerateCallback(unitBase: Option<Addon>, values: seq<CallbackArg>) returns (r: Result<Fired, CallbackError>)
    ensures unitBase.None? ==> r == Failure(NullUnitBase)
    ensures unitBase.Some? && (exists k :: 0 <= k < |values| && values[k].OtherArg?) ==> r.Failure? && r.error.UnsupportedType?
    ensures r.Success? <==> unitBase.Some? && forall k :: 0 <= k < |values| ==> !values[k].OtherArg?
    ensures r.Success? ==> r.value.addon == unitBase.value && r.value.count == |values| % TWO_16
    ensures r.Success? ==> |r.value.values| == |values|
    ensures r.Success? ==> forall k :: 0 <= k < |values| ==> Success(r.value.values[k]) == ToAtkValue(values[k])
  {
    if unitBase.None? {
      return Failure(NullUnitBase);
    }
    var atkValues := new AtkValue[|values|](_ => IntValue(0));
    var i := 0;
    while i < |values|
      invariant 0 <= i <= |values|
      invariant forall k :: 0 <= k < i ==> !values[k].OtherArg? && Success(atkValues[k]) == ToAtkValue(values[k])
    {
      var converted := ToAtkValue(values[i]);
      if converted.Failure? {
        return Failure(converted.error);
      }
      atkValues[i] := converted.value;
      i := i + 1;
    }
    return Success(Fired(unitBase.value, |values| % TWO_16, atkValues[..]));
  }

  /** The addons the plugin has fired callbacks on and closed, oldest first. */
  class UiHost {
    var fired: seq<Fired>
    var closed: seq<Addon>

    constructor ()
      ensures fired == [] && closed == []
    {
      fired := [];
      closed := [];
    }

    /** `SelectYes`: answers a dialog with the single int 0 and closes it; false for a null addon. */
    method SelectYes(addon: Option<Addon>) returns (ok: bool)
      modifies this
      ensures ok <==> addon.Some?
      ensures !ok ==> fired == old(fired) && closed == old(closed)
      ensures ok ==> fired == old(fired) + [Fired(addon.value, 1, [IntValue(0)])]
      ensures ok ==> closed == old(closed) + [addon.value]
    {
      if addon.None? {
        return false;
      }
      var r := GenerateCallback(addon, [IntArg(0)]);
      assert Success(r.value.values[0]) == ToAtkValue(IntArg(0));
      assert r.value.values == [IntValue(0)];
      fired := fired + [r.value];
      closed := closed + [addon.value];
      return true;
    }
  }

  /** A payload of a game string; only text payloads carry text. */
  datatype Payload = TextPayload(text: string) | OtherPayload

  function TextPieces(payloads: seq<Payload>): seq<string> {
    if payloads == [] then []
    else (if payloads[0].TextPayload? then [payloads[0].text] else []) + TextPieces(payloads[1..])
  }

  /** The text payloads joined with every line break turned into a space. */
  function OneLine(payloads: seq<Payload>): (s: string)
    ensures |s| == |Concat(TextPieces(payloads))|
    ensures forall k :: 0 <= k < |s| ==>
      s[k] == (if Concat(TextPieces(payloads))[k] == '\n' then ' ' else Concat(TextPieces(payloads))[k])
    ensures forall k :: 0 <= k < |s| ==> s[k] != '\n'
  {
    ReplaceChar(Concat(TextPieces(payloads)), '\n', ' ')
  }

  /** Trimming keeps only characters of the trimmed string, in order. */
  lemma TrimIsInfix(s: string)
    ensures var i := LeadingCount(s, IsWhiteSpace);
      i + |Trim(s)| <= |s| && forall k :: 0 <= k < |Trim(s)| ==> Trim(s)[k] == s[i + k]
  {
    var i := LeadingCount(s, IsWhiteSpace);
    var r := TrimBy(s, IsWhiteSpace);
    assert r == s[i..i + |r|];
  }

  /**
   * `GetSeStringText`: the one-line text with surrounding white space removed:
   * a slice of the one-line text, every character cut from either side of it
   * is white space, and it neither starts nor ends with white space.
   */
  function GetSeStringText(payloads: seq<Payload>): (r: string)
    ensures var s, i := OneLine(payloads), LeadingCount(OneLine(payloads), IsWhiteSpace);
      i + |r| <= |s| && r == s[i..i + |r|]
      && (forall k :: 0 <= k < i ==> IsWhiteSpace(s[k]))
      && (forall k :: i + |r| <= k < |s| ==> IsWhiteSpace(s[k]))
    ensures r == [] || (!IsWhiteSpace(r[0]) && !IsWhiteSpace(r[|r| - 1]))
    ensures forall k :: 0 <= k < |r| ==> r[k] != '\n'
  {
    var s := OneLine(payloads);
    TrimIsInfix(s);
    TrimRemovesOnlyWhite(s, IsWhiteSpace);
    Trim(s)
  }

  // ---------------------------------------------------------------------------
  // Party members and the agent calls of the party code
  // ---------------------------------------------------------------------------

  datatype PartyMember = PartyMember(name: string, contentId: nat)

  /** `name.StartsWith(prefix)`, compared character by character. */
  predicate StartsWith(name: string, prefix: string) {
    |prefix| <= |name| && name[..|prefix|] == prefix
  }

  /** A call the party code makes into the game or schedules. */
  datatype PartyCall =
    | InviteToParty(character: string, homeWorldId: uint16)
    | Promote(message: string, contentId: nat)
    | InteractWithObject(target: GameObject)
    | ShowTeleport
    | SendChatLine(line: string)

  /** A `SelectYesNo` dialog being set up: the addon and the payloads of its prompt. */
  datatype YesNoDialog = YesNoDialog(addon: Addon, prompt: seq<Payload>)

  /** Why a "name;world" message cannot be read. */
  datatype CharacterError =
    | MissingWorldId  // `Split(';')[1]` is out of range
    | BadWorldId      // `Convert.ToUInt16` rejects the field

  /**
   * `message.Split(';')[0]` and `Convert.ToUInt16(message.Split(';')[1])`: a
   * character name and the id of its home world.
   */
  function ParseCharacter(message: string): (r: Result<(string, uint16), CharacterError>)
    ensures r == Failure(MissingWorldId) <==> |Split(message, ';')| < 2
    ensures r == Failure(BadWorldId) <==>
      |Split(message, ';')| >= 2 && ParseUInt16(Split(message, ';')[1]).None?
    ensures r.Success? ==> r.value.0 == Split(message, ';')[0]
    ensures r.Success? ==> ParseInteger(Split(message, ';')[1]) == Some(r.value.1 as int)
  {
    match Field(message, ';', 1)
    case None => Failure(MissingWorldId)
    case Some(world) =>
      match ParseUInt16(world)
      case None => Failure(BadWorldId)
      case Some(id) => Success((Split(message, ';')[0], id))
  }

  /** A name without ';' and a world id written the way `ToString` writes it read back as themselves. */
  lemma CharacterRoundTrip(name: string, world: uint16)
    requires ';' !in name
    ensures ParseCharacter(name + ";" + FormatInteger(world as int)) == Success((name, world))
  {
    var w := FormatInteger(world as int);
    assert forall k :: 0 <= k < |w| ==> IsDigit(w[k]);
    SplitWithoutSeparator(w, ';');
    SplitAfterPiece(name, w, ';');
    assert name + ";" + w == name + [';'] + w;
    ParseFormatted(world as int);
  }
}
