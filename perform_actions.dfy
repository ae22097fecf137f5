/**
 * Performance-mode key input: the mini-keyboard key remapping, the shape check
 * on UI callbacks, and the note-held state kept in the performance agent.
 */
module PerformActions {
  import opened Wrappers
  import opened Numeric

  /** The value of `CurrentPressingNote` that means "no note is held". */
  const NoNote: int := -100

  /** The distance between a note number and the agent's key number. */
  const KeyBase: int := 39

  /** Maps a key of the 37-key keyboard onto the 13 keys of the mini keyboard. */
  function ConvertMiniKeyNumber(keyNumber: int): (r: int)
    ensures 0 <= keyNumber <= 36 ==> 0 <= r <= 12
    ensures r == keyNumber || r == keyNumber - 12 || r == keyNumber - 24
  {
    var k := keyNumber - 12;
    if k < 0 then k + 12
    else if k > 12 then k - 12
    else k
  }

  /** The key and the two `ref` outputs of the overload that also reports the shift. */
  datatype MiniKey = MiniKey(keyNumber: int, offset: int, octave: int)

  function ConvertMiniKeyNumberWithShift(keyNumber: int, offset: int, octave: int): (r: MiniKey)
    ensures r.keyNumber == ConvertMiniKeyNumber(keyNumber)
    ensures offset == 0 && octave == 0 ==>
      -1 <= r.octave <= 1 && r.offset == 12 * r.octave && r.keyNumber + r.offset == keyNumber - 12
  {
    var k := keyNumber - 12;
    if k < 0 then MiniKey(k + 12, -12, -1)
    else if k > 12 then MiniKey(k - 12, 12, 1)
    else MiniKey(k, offset, octave)
  }

  /** A window of the host's addon table, known by its name. */
  type Window = string

  /** A `FireCallback` issued to a window with `pairCount` value pairs. */
  datatype Callback = Callback(window: Window, pairCount: nat, values: seq<uint64>)

  /** Both failures are ArgumentException in the source. */
  datatype ActionError = ParameterLengthOdd | NullPointer

  /** `SendAction(ptr, param)`: `ptr` is None for the null pointer. */
  function SendAction(ptr: Option<Window>, param: seq<uint64>): (r: Result<Callback, ActionError>)
    ensures |param| % 2 != 0 ==> r == Failure(ParameterLengthOdd)
    ensures r == Failure(NullPointer) <==> |param| % 2 == 0 && ptr.None?
    ensures r.Success? ==> r.value == Callback(ptr.value, |param| / 2, param) && 2 * r.value.pairCount == |param|
  {
    if |param| % 2 != 0 then Failure(ParameterLengthOdd)
    else if ptr.None? then Failure(NullPointer)
    else Success(Callback(ptr.value, |param| / 2, param))
  }

  const MiniWindow: Window := "PerformanceMode"
  const WideWindow: Window := "PerformanceModeWide"

  /** The fields of the performance agent the plugin reads and writes. */
  class AgentPerformance {
    var currentPressingNote: int
    var noteOffset: int
    var octaveOffset: int

    constructor ()
      ensures currentPressingNote == NoNote && noteOffset == 0 && octaveOffset == 0
    {
      currentPressingNote := NoNote;
      noteOffset := 0;
      octaveOffset := 0;
    }

    function NoteNumber(): int
      reads this
    {
      currentPressingNote
    }

    predicate NotePressed()
      reads this
    {
      currentPressingNote != NoNote
    }
  }

  /**
   * The host state the key input works against: the open addon windows, the
   * callbacks issued so far, and the performance agent (null when unavailable).
   */
  class Performance {
    var openWindows: set<Window>
    var sent: seq<Callback>
    var agent: AgentPerformance?

    constructor (windows: set<Window>, agent: AgentPerformance?)
      ensures openWindows == windows && sent == [] && this.agent == agent
    {
      openWindows := windows;
      sent := [];
      this.agent := agent;
    }

    /** The performance window and whether it is the mini keyboard. */
    function TargetWindowPtr(): (r: Option<(bool, Window)>)
      reads this
      ensures r.None? <==> MiniWindow !in openWindows && WideWindow !in openWindows
      ensures r.Some? ==> r.value.1 in openWindows && (r.value.0 <==> r.value.1 == MiniWindow)
      ensures MiniWindow in openWindows ==> r == Some((true, MiniWindow))
    {
      if MiniWindow in openWindows then Some((true, MiniWindow))
      else if WideWindow in openWindows then Some((false, WideWindow))
      else None
    }

    /** The callback a key press (`action` 1) or release (`action` 2) issues, if a performance window is open. */
    function KeyCallback(action: uint64, keyNumber: int): (r: Option<Callback>)
      reads this
      ensures r.Some? <==> TargetWindowPtr().Some?
      ensures r.Some? ==> r.value.window == TargetWindowPtr().value.1 && r.value.pairCount == 2
      ensures r.Some? ==> |r.value.values| == 4 && r.value.values[..3] == [3, action, 4]
    {
      match TargetWindowPtr()
      case None => None
      case Some((mini, w)) =>
        var key := if mini then ConvertMiniKeyNumber(keyNumber) else keyNumber;
        Some(Callback(w, 2, [3, action, 4, ToUInt64(key)]))
    }

    /** The offset and octave a successful press leaves in the agent. */
    function PressShift(keyNumber: int): (r: (int, int))
      reads this
      requires TargetWindowPtr().Some?
      ensures -1 <= r.1 <= 1 && r.0 == 12 * r.1
      ensures !TargetWindowPtr().value.0 ==> r == (0, 0)
    {
      if TargetWindowPtr().value.0 then
        var m := ConvertMiniKeyNumberWithShift(keyNumber, 0, 0);
        (m.offset, m.octave)
      else (0, 0)
    }

    /** `SendAction(name, param)`: false when the window is not open. */
    method SendActionByName(name: Window, param: seq<uint64>) returns (r: Result<bool, ActionError>)
      modifies this`sent
      ensures |param| % 2 != 0 && name in openWindows ==> r == Failure(ParameterLengthOdd)
      ensures r == Success(false) <==> name !in openWindows
      ensures |param| % 2 == 0 ==> r.Success?
      ensures r == Success(true) ==> sent == old(sent) + [Callback(name, |param| / 2, param)]
      ensures !r.Success? || !r.value ==> sent == old(sent)
    {
      if name !in openWindows {
        return Success(false);
      }
      var res := SendAction(Some(name), param);
      if res.Failure? {
        return Failure(res.error);
      }
      sent := sent + [res.value];
      return Success(true);
    }

    method PressKey(keyNumber: int, offset: int, octave: int) returns (ok: bool, offset': int, octave': int)
      modifies this`sent
      ensures ok <==> TargetWindowPtr().Some?
      ensures !ok ==> sent == old(sent) && offset' == offset && octave' == octave
      ensures ok ==> sent == old(sent) + [KeyCallback(1, keyNumber).value]
      ensures ok ==> (offset', octave') == PressShift(keyNumber)
    {
      var target := TargetWindowPtr();
      if target.None? {
        return false, offset, octave;
      }
      var (miniMode, window) := target.value;
      offset', octave' := 0, 0;
      var key := keyNumber;
      if miniMode {
        var m := ConvertMiniKeyNumberWithShift(keyNumber, offset', octave');
        key, offset', octave' := m.keyNumber, m.offset, m.octave;
      }
      var res := SendAction(Some(window), [3, 1, 4, ToUInt64(key)]);
      sent := sent + [res.value];
      ok := true;
    }

    method ReleaseKey(keyNumber: int) returns (ok: bool)
      modifies this`sent
      ensures ok <==> TargetWindowPtr().Some?
      ensures !ok ==> sent == old(sent)
      ensures ok ==> sent == old(sent) + [KeyCallback(2, keyNumber).value]
    {
      var target := TargetWindowPtr();
      if target.None? {
        return false;
      }
      var (miniMode, window) := target.value;
      var key := keyNumber;
      if miniMode {
        key := ConvertMiniKeyNumber(keyNumber);
      }
      var res := SendAction(Some(window), [3, 2, 4, ToUInt64(key)]);
      sent := sent + [res.value];
      ok := true;
    }

    method GuitarSwitchTone(tone: int) returns (ok: bool)
      modifies this`sent
      ensures ok <==> "PerformanceToneChange" in openWindows
      ensures !ok ==> sent == old(sent)
      ensures ok ==> sent == old(sent) + [Callback("PerformanceToneChange", 2, [3, 0, 3, ToUInt64(tone)])]
    {
      if "PerformanceToneChange" !in openWindows {
        return false;
      }
      var res := SendAction(Some("PerformanceToneChange"), [3, 0, 3, ToUInt64(tone)]);
      sent := sent + [res.value];
      ok := true;
    }

    method BeginReadyCheck() returns (ok: bool)
      modifies this`sent
      ensures ok <==> "PerformanceMetronome" in openWindows
      ensures ok ==> sent == old(sent) + [Callback("PerformanceMetronome", 2, [3, 2, 2, 0])]
      ensures !ok ==> sent == old(sent)
    {
      var r := SendActionByName("PerformanceMetronome", [3, 2, 2, 0]);
      ok := r.value;
    }

    method ConfirmBeginReadyCheck() returns (ok: bool)
      modifies this`sent
      ensures ok <==> "PerformanceReadyCheck" in openWindows
      ensures ok ==> sent == old(sent) + [Callback("PerformanceReadyCheck", 1, [3, 2])]
      ensures !ok ==> sent == old(sent)
    {
      var r := SendActionByName("PerformanceReadyCheck", [3, 2]);
      ok := r.value;
    }

    method ConfirmReceiveReadyCheck() returns (ok: bool)
      modifies this`sent
      ensures ok <==> "PerformanceReadyCheckReceive" in openWindows
      ensures ok ==> sent == old(sent) + [Callback("PerformanceReadyCheckReceive", 1, [3, 2])]
      ensures !ok ==> sent == old(sent)
    {
      var r := SendActionByName("PerformanceReadyCheckReceive", [3, 2]);
      ok := r.value;
    }

    /** Note on: release the same note if it is held, then press it. Note off: release only the held note. */
    method PlayNote(noteNum: int, on: bool)
      modifies this`sent, agent
      ensures agent == old(agent)
      // note on
      ensures on && agent == null ==> sent == old(sent)
      ensures on && agent != null && TargetWindowPtr().None? ==> sent == old(sent) && unchanged(agent)
      ensures on && agent != null && TargetWindowPtr().Some? ==>
        && agent.currentPressingNote == noteNum + KeyBase
        && (agent.noteOffset, agent.octaveOffset) == PressShift(noteNum)
        && sent == old(sent)
                   + (if old(agent.currentPressingNote) - KeyBase == noteNum then [KeyCallback(2, noteNum).value] else [])
                   + [KeyCallback(1, noteNum).value]
      // note off
      ensures !on && agent != null && old(agent.currentPressingNote) - KeyBase != noteNum ==>
        sent == old(sent) && unchanged(agent)
      ensures !on && (agent == null || old(agent.currentPressingNote) - KeyBase == noteNum) ==>
        && sent == old(sent) + (if TargetWindowPtr().Some? then [KeyCallback(2, noteNum).value] else [])
        && (agent != null ==> agent.noteOffset == old(agent.noteOffset) && agent.octaveOffset == old(agent.octaveOffset))
        && (agent != null && TargetWindowPtr().Some? ==> !agent.NotePressed())
        && (agent != null && TargetWindowPtr().None? ==> agent.currentPressingNote == old(agent.currentPressingNote))
    {
      if on {
        if agent != null && agent.NoteNumber() - KeyBase == noteNum {
          var released := ReleaseKey(noteNum);
          if released {
            agent.currentPressingNote := NoNote;
          }
        }
        if agent != null {
          var pressed, offset, octave := PressKey(noteNum, agent.noteOffset, agent.octaveOffset);
          agent.noteOffset, agent.octaveOffset := offset, octave;
          if pressed {
            agent.currentPressingNote := noteNum + KeyBase;
          }
        }
      } else {
        if agent != null && agent.currentPressingNote - KeyBase != noteNum {
          return;
        }
        var released := ReleaseKey(noteNum);
        if released {
          if agent != null {
            agent.currentPressingNote := NoNote;
          }
        }
      }
    }
  }
}
