/**
 * `AutoSelect.AutoSelectYes` and the `GameFunctions.Party` singleton. The
 * listener answers `SelectYesNo` dialogs while `Listen` is on, and the party
 * operations switch it on; a matched dialog switches it off again through
 * `Party.AcceptDisable`, so auto-accept is one-shot.
 */
module PartyAutoAccept {
  import opened Wrappers
  import opened Numeric
  import opened Geometry
  import opened Seqs
  import opened GameUi
  import Misc

  /** The pattern lists `AddonSetup` tries, in the order it tries them. */
  datatype Category =
    | Lfg | LeaveParty | PromoteLeader | ConfirmHouseEntrance | ConfirmGroupTeleport | ConfirmLogout | ConfirmShutdown

  const CategoryOrder: seq<Category> :=
    [Lfg, LeaveParty, PromoteLeader, ConfirmHouseEntrance, ConfirmGroupTeleport, ConfirmLogout, ConfirmShutdown]

  /**
   * The category whose patterns answer a prompt: the first one in the order
   * that matches. `matches(c, text)` stands for "some pattern of c matches text".
   */
  function MatchedCategory(text: string, matches: (Category, string) -> bool): (r: Option<Category>)
    ensures r.None? <==> forall c :: c in CategoryOrder ==> !matches(c, text)
    ensures r.Some? ==> matches(r.value, text)
    ensures r.Some? ==>
      exists k :: 0 <= k < |CategoryOrder| && CategoryOrder[k] == r.value &&
        forall j :: 0 <= j < k ==> !matches(CategoryOrder[j], text)
  {
    match FirstIndex(CategoryOrder, c => matches(c, text))
    case None => None
    case Some(k) => Some(CategoryOrder[k])
  }

  /** An LFG prompt is answered as LFG whatever else it matches. */
  lemma LfgFirst(text: string, matches: (Category, string) -> bool)
    requires matches(Lfg, text)
    ensures MatchedCategory(text, matches) == Some(Lfg)
  {
    assert CategoryOrder[0] == Lfg;
  }

  class AutoSelectYes {
    /** Whether `Api.AddonLifecycle` is present. */
    const lifecycle: bool
    /** Whether `AddonSetup` is registered for `SelectYesNo` post-setup events. */
    var registered: bool
    /** `Listen`. */
    var listen: bool

    /** Registers the listener (when the lifecycle service exists) with listening off. */
    constructor (lifecycle: bool)
      ensures this.lifecycle == lifecycle && registered == lifecycle && !listen
    {
      this.lifecycle := lifecycle;
      registered := lifecycle;
      listen := false;
    }

    method Dispose()
      modifies this
      ensures registered == (old(registered) && !lifecycle) && listen == old(listen)
    {
      if lifecycle {
        registered := false;
      }
    }

    method Enable()
      modifies this
      ensures listen && registered == old(registered)
    {
      listen := true;
    }

    method Disable()
      modifies this
      ensures !listen && registered == old(registered)
    {
      listen := false;
    }

    /**
     * The `SelectYesNo` post-setup handler. While listening, a prompt in some
     * category is answered Yes once and then auto-accept is disabled; anything
     * else leaves every state as it was.
     */
    method AddonSetup(dialog: Option<YesNoDialog>, matches: (Category, string) -> bool, party: Party, host: UiHost)
      modifies this, party.yesNoAddon, host
      ensures registered == old(registered)
      ensures party.yesNoAddon != null ==> party.yesNoAddon.registered == old(party.yesNoAddon.registered)
      ensures var acts := old(listen) && dialog.Some? &&
          MatchedCategory(GetSeStringText(dialog.value.prompt), matches).Some?;
        if acts then
          host.fired == old(host.fired) + [Fired(dialog.value.addon, 1, [IntValue(0)])] &&
          host.closed == old(host.closed) + [dialog.value.addon] &&
          (party.yesNoAddon != null ==> !party.yesNoAddon.listen) &&
          (party.yesNoAddon != this ==> listen == old(listen))
        else
          host.fired == old(host.fired) && host.closed == old(host.closed) &&
          listen == old(listen) &&
          (party.yesNoAddon != null ==> party.yesNoAddon.listen == old(party.yesNoAddon.listen))
    {
      if !listen {
        return;
      }
      if dialog.None? {
        return;
      }
      var text := GetSeStringText(dialog.value.prompt);
      var category := MatchedCategory(text, matches);
      if category.Some? {
        var _ := host.SelectYes(Some(dialog.value.addon));
        party.AcceptDisable();
      }
    }
  }

  /** The accept flags and their bits in `AcceptLock`. */
  datatype AcceptFlags = AcceptTeleport | AcceptGroupInv

  function FlagBits(f: AcceptFlags): (b: bv8)
    ensures b == 1 || b == 2
  {
    match f
    case AcceptTeleport => 0x01
    case AcceptGroupInv => 0x02
  }

  /** `((AcceptFlags)AcceptLock & flag) == flag`. */
  predicate IsFlagSet(lock: bv8, f: AcceptFlags) {
    lock & FlagBits(f) == FlagBits(f)
  }

  /** The two flags are different single bits, so each can be set alone. */
  lemma FlagsIndependent(lock: bv8, f: AcceptFlags, g: AcceptFlags)
    ensures IsFlagSet(lock | FlagBits(f), f)
    ensures g != f ==> (IsFlagSet(lock | FlagBits(f), g) <==> IsFlagSet(lock, g))
    ensures !IsFlagSet(0, g)
  {
  }

  /** Where the house entrance must be for `EnterHouse` to use it: the single-precision value of 4.8f. */
  const EntranceReach: real := 4.80000019073486328125

  /** The `GameFunctions.Party` singleton. */
  class Party {
    var yesNoAddon: AutoSelectYes?
    /** `AcceptLock`. */
    var acceptLock: bv8
    /** The calls made into the game, oldest first. */
    var calls: seq<PartyCall>

    constructor ()
      ensures yesNoAddon == null && acceptLock == 0 && calls == []
    {
      yesNoAddon := null;
      acceptLock := 0;
      calls := [];
    }

    method Initialize(lifecycle: bool)
      modifies this
      ensures fresh(yesNoAddon) && yesNoAddon.registered == lifecycle && !yesNoAddon.listen
      ensures acceptLock == old(acceptLock) && calls == old(calls)
    {
      yesNoAddon := new AutoSelectYes(lifecycle);
    }

    method Dispose()
      modifies this, yesNoAddon
      ensures yesNoAddon == null && acceptLock == old(acceptLock) && calls == old(calls)
      ensures old(yesNoAddon) != null ==>
        old(yesNoAddon).registered == (old(yesNoAddon.registered) && !old(yesNoAddon).lifecycle)
    {
      if yesNoAddon != null {
        yesNoAddon.Dispose();
      }
      yesNoAddon := null;
    }

    predicate IsAcceptFlagSet(f: AcceptFlags)
      reads this
    {
      IsFlagSet(acceptLock, f)
    }

    method ClearFlags()
      modifies this
      ensures forall f :: !IsAcceptFlagSet(f)
      ensures acceptLock == 0 && yesNoAddon == old(yesNoAddon) && calls == old(calls)
    {
      acceptLock := 0;
    }

    method SetFlag(f: AcceptFlags)
      modifies this
      ensures IsAcceptFlagSet(f)
      ensures forall g :: g != f ==> (IsAcceptFlagSet(g) <==> old(IsAcceptFlagSet(g)))
      ensures acceptLock == old(acceptLock) | FlagBits(f)
      ensures yesNoAddon == old(yesNoAddon) && calls == old(calls)
    {
      acceptLock := acceptLock | FlagBits(f);
    }

    /** `YesNoAddon?.Enable()`. */
    method EnableAddon()
      modifies this`calls, yesNoAddon
      ensures yesNoAddon != null ==> yesNoAddon.listen && yesNoAddon.registered == old(yesNoAddon.registered)
      ensures calls == old(calls)
    {
      if yesNoAddon != null {
        yesNoAddon.Enable();
      }
    }

    /**
     * `PartyInvite(string)`: an empty message only enables auto-accept; any
     * other is read as "name;world" and invites that character, or fails
     * without inviting.
     */
    method PartyInvite(message: string) returns (r: Result<(), CharacterError>)
      modifies yesNoAddon, this`calls
      ensures message == "" ==> r.Success? && calls == old(calls)
      ensures message == "" && yesNoAddon != null ==> yesNoAddon.listen
      ensures message != "" ==> yesNoAddon != null ==> yesNoAddon.listen == old(yesNoAddon.listen)
      ensures message != "" ==> match ParseCharacter(message)
        case Success(c) => r.Success? && calls == old(calls) + [InviteToParty(c.0, c.1)]
        case Failure(e) => r == Failure(e) && calls == old(calls)
      ensures yesNoAddon != null ==> yesNoAddon.registered == old(yesNoAddon.registered)
    {
      if message == "" {
        EnableAddon();
        return Success(());
      }
      var parsed := ParseCharacter(message);
      if parsed.Failure? {
        return Failure(parsed.error);
      }
      calls := calls + [InviteToParty(parsed.value.0, parsed.value.1)];
      return Success(());
    }

    method AcceptPartyInviteEnable()
      modifies yesNoAddon
      ensures yesNoAddon != null ==> yesNoAddon.listen && yesNoAddon.registered == old(yesNoAddon.registered)
    {
      if yesNoAddon != null {
        yesNoAddon.Enable();
      }
    }

    /**
     * Enables auto-accept, then promotes the first party member whose name
     * starts with the message (or equals it) and no other.
     */
    method PromoteCharacter(message: string, members: seq<PartyMember>)
      modifies yesNoAddon, this`calls
      ensures yesNoAddon != null ==> yesNoAddon.listen && yesNoAddon.registered == old(yesNoAddon.registered)
      ensures match FirstIndex(members, (m: PartyMember) => StartsWith(m.name, message))
        case None => calls == old(calls)
        case Some(k) => calls == old(calls) + [Promote(message, members[k].contentId)]
    {
      EnableAddon();
      var i := 0;
      while i < |members|
        invariant 0 <= i <= |members|
        invariant forall j :: 0 <= j < i ==> !StartsWith(members[j].name, message)
        invariant calls == old(calls)
      {
        if StartsWith(members[i].name, message) || members[i].name == message {
          calls := calls + [Promote(message, members[i].contentId)];
          return;
        }
        i := i + 1;
      }
    }

    /**
     * Interacts with the entrance the scan returns when it is within reach,
     * and enables auto-accept in every case.
     */
    method EnterHouse(objects: Option<seq<GameObject>>, localPlayer: Option<Vec3>,
                      isEntrance: string -> bool, distance: (Vec3, Vec3) -> real)
      modifies yesNoAddon, this`calls
      ensures yesNoAddon != null ==> yesNoAddon.listen && yesNoAddon.registered == old(yesNoAddon.registered)
      ensures var first := Misc.FirstEntrance(objects, localPlayer, isEntrance, distance);
        if first.Some? && distance(localPlayer.value, objects.value[first.value].position) < EntranceReach
        then calls == old(calls) + [InteractWithObject(objects.value[first.value])]
        else calls == old(calls)
    {
      var entrance, dist := Misc.GetNearestEntrance(objects, localPlayer, isEntrance, distance);
      if entrance.Some? && dist < EntranceReach {
        calls := calls + [InteractWithObject(entrance.value)];
      }
      EnableAddon();
    }

    /** Opens the teleport menu, or only enables auto-accept. */
    method Teleport(showMenu: bool)
      modifies yesNoAddon, this`calls
      ensures showMenu ==> calls == old(calls) + [ShowTeleport]
      ensures showMenu && yesNoAddon != null ==> yesNoAddon.listen == old(yesNoAddon.listen)
      ensures !showMenu ==> calls == old(calls)
      ensures !showMenu && yesNoAddon != null ==> yesNoAddon.listen
      ensures yesNoAddon != null ==> yesNoAddon.registered == old(yesNoAddon.registered)
    {
      if showMenu {
        calls := calls + [ShowTeleport];
      } else {
        EnableAddon();
      }
    }

    /**
     * Enables auto-accept and schedules the "/leave" chat command; without the
     * framework service nothing is scheduled.
     */
    method PartyLeave(framework: bool)
      modifies yesNoAddon, this`calls
      ensures yesNoAddon != null ==> yesNoAddon.listen && yesNoAddon.registered == old(yesNoAddon.registered)
      ensures calls == old(calls) + (if framework then [SendChatLine("/leave")] else [])
    {
      EnableAddon();
      if framework {
        calls := calls + [SendChatLine("/leave")];
      }
    }

    method AcceptDisable()
      modifies yesNoAddon
      ensures yesNoAddon != null ==> !yesNoAddon.listen && yesNoAddon.registered == old(yesNoAddon.registered)
    {
      if yesNoAddon != null {
        yesNoAddon.Disable();
      }
    }
  }
}
