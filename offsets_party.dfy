/**
 * The static `Offsets.Party` class and its `AutoSelectYesNo` listener. Here
 * the listener has no state of its own: `YesNoAddon` being non-null marks it
 * as active, `Enable` registers `AddonSetup` with the addon lifecycle and
 * `Disable` unregisters it.
 */
module OffsetsParty {
  import opened Wrappers
  import opened Seqs
  import opened GameUi

  /** The two pattern lists of this version, tried in this order. */
  datatype Category = Lfg | PromoteLeader

  /** The static fields of `Party` and the lifecycle registrations of `AutoSelectYesNo.AddonSetup`. */
  class PartyState {
    /** Whether `Api.AddonLifecycle` is present. */
    const lifecycle: bool
    /** `YesNoAddon != null`. */
    var hasYesNoAddon: bool
    /** How many times `AddonSetup` is registered. */
    var registrations: nat
    /** The calls made into the game, oldest first. */
    var calls: seq<PartyCall>

    constructor (lifecycle: bool)
      ensures this.lifecycle == lifecycle && !hasYesNoAddon && registrations == 0 && calls == []
    {
      this.lifecycle := lifecycle;
      hasYesNoAddon := false;
      registrations := 0;
      calls := [];
    }

    /** The listener is registered exactly once while `YesNoAddon` exists, and not at all otherwise. */
    predicate Valid()
      reads this
    {
      registrations == (if hasYesNoAddon && lifecycle then 1 else 0)
    }

    /** `AutoSelectYesNo.Enable`: one more registration. */
    method Register()
      modifies this
      ensures registrations == old(registrations) + (if lifecycle then 1 else 0)
      ensures hasYesNoAddon == old(hasYesNoAddon) && calls == old(calls)
    {
      if lifecycle {
        registrations := registrations + 1;
      }
    }

    /** `AutoSelectYesNo.Disable`: removes every registration of the handler. */
    method Unregister()
      modifies this
      ensures registrations == (if lifecycle then 0 else old(registrations))
      ensures hasYesNoAddon == old(hasYesNoAddon) && calls == old(calls)
    {
      if lifecycle {
        registrations := 0;
      }
    }

    /** Creates and registers the listener only when there is none, so a repeated call does nothing. */
    method AcceptPartyInviteEnable()
      requires Valid()
      modifies this
      ensures Valid() && hasYesNoAddon && calls == old(calls)
      ensures old(hasYesNoAddon) ==> registrations == old(registrations)
    {
      if hasYesNoAddon {
        return;
      }
      hasYesNoAddon := true;
      Register();
    }

    /** Unregisters and drops the listener; nothing happens when there is none. */
    method AcceptDisable()
      requires Valid()
      modifies this
      ensures Valid() && !hasYesNoAddon && registrations == 0 && calls == old(calls)
    {
      if !hasYesNoAddon {
        return;
      }
      Unregister();
      hasYesNoAddon := false;
    }

    /**
     * `PartyInvite`: an empty message only creates the listener; any other is
     * read as "name;world" and invites that character, or fails without inviting.
     */
    method PartyInvite(message: string) returns (r: Result<(), CharacterError>)
      requires Valid()
      modifies this
      ensures Valid()
      ensures message == "" ==> r.Success? && hasYesNoAddon && calls == old(calls)
      ensures message != "" ==> hasYesNoAddon == old(hasYesNoAddon) && registrations == old(registrations)
      ensures message != "" ==> match ParseCharacter(message)
        case Success(c) => r.Success? && calls == old(calls) + [InviteToParty(c.0, c.1)]
        case Failure(e) => r == Failure(e) && calls == old(calls)
    {
      if message == "" {
        AcceptPartyInviteEnable();
        return Success(());
      }
      var parsed := ParseCharacter(message);
      if parsed.Failure? {
        return Failure(parsed.error);
      }
      calls := calls + [InviteToParty(parsed.value.0, parsed.value.1)];
      return Success(());
    }

    /**
     * Does nothing while a listener exists. Otherwise creates and registers one,
     * then promotes the first party member whose name starts with the message.
     */
    method PromoteCharacter(message: string, members: seq<PartyMember>)
      requires Valid()
      modifies this
      ensures Valid() && hasYesNoAddon
      ensures old(hasYesNoAddon) ==> calls == old(calls) && registrations == old(registrations)
      ensures !old(hasYesNoAddon) ==> match FirstIndex(members, (m: PartyMember) => StartsWith(m.name, message))
        case None => calls == old(calls)
        case Some(k) => calls == old(calls) + [Promote(message, members[k].contentId)]
    {
      if hasYesNoAddon {
        return;
      }
      hasYesNoAddon := true;
      Register();
      var i := 0;
      while i < |members|
        invariant 0 <= i <= |members|
        invariant forall j :: 0 <= j < i ==> !StartsWith(members[j].name, message)
        invariant Valid() && hasYesNoAddon && calls == old(calls)
      {
        if StartsWith(members[i].name, message) {
          calls := calls + [Promote(message, members[i].contentId)];
          return;
        }
        i := i + 1;
      }
    }

    /**
     * `AutoSelectYesNo.AddonSetup`: runs whenever it is registered (there is no
     * `Listen` gate). An LFG prompt, or failing that a promote prompt, is
     * answered Yes and the listener is dropped.
     */
    method AddonSetup(dialog: Option<YesNoDialog>, matches: (Category, string) -> bool, host: UiHost)
      requires Valid()
      modifies this, host
      ensures Valid() && calls == old(calls)
      ensures var acts := dialog.Some? &&
          (matches(Lfg, GetSeStringText(dialog.value.prompt)) ||
           matches(PromoteLeader, GetSeStringText(dialog.value.prompt)));
        if acts then
          host.fired == old(host.fired) + [Fired(dialog.value.addon, 1, [IntValue(0)])] &&
          host.closed == old(host.closed) + [dialog.value.addon] &&
          !hasYesNoAddon && registrations == 0
        else
          host.fired == old(host.fired) && host.closed == old(host.closed) &&
          hasYesNoAddon == old(hasYesNoAddon) && registrations == old(registrations)
    {
      if dialog.None? {
        return;
      }
      var text := GetSeStringText(dialog.value.prompt);
      if matches(Lfg, text) {
        var _ := host.SelectYes(Some(dialog.value.addon));
        AcceptDisable();
        return;
      }
      if matches(PromoteLeader, text) {
        var _ := host.SelectYes(Some(dialog.value.addon));
        AcceptDisable();
      }
    }
  }
}
