/**
 * Sending a line to the game's chat box: the checks on the message, the
 * sanitiser and chat-box guards, and the null-terminated payload handed to the game.
 */
module Chat {
  import opened Wrappers
  import opened Numeric

  // ---------------------------------------------------------------------------
  // Encodings of a string
  // ---------------------------------------------------------------------------

  /** The UTF-8 bytes of one Unicode scalar value. */
  function EncodeScalar(c: char): (bs: seq<byte>)
    ensures 1 <= |bs| <= 4
    ensures (c as int < 0x80) <==> |bs| == 1
  {
    var n := c as int;
    if n < 0x80 then [n]
    else if n < 0x800 then [0xC0 + n / 0x40, 0x80 + n % 0x40]
    else if n < 0x1_0000 then [0xE0 + n / 0x1000, 0x80 + (n / 0x40) % 0x40, 0x80 + n % 0x40]
    else [0xF0 + n / 0x4_0000, 0x80 + (n / 0x1000) % 0x40, 0x80 + (n / 0x40) % 0x40, 0x80 + n % 0x40]
  }

  /** `Encoding.UTF8.GetBytes`. */
  function Utf8(s: string): seq<byte> {
    if s == [] then [] else EncodeScalar(s[0]) + Utf8(s[1..])
  }

  /** `string.Length`: the number of UTF-16 code units. */
  function Utf16Length(s: string): nat {
    if s == [] then 0 else (if s[0] as int < 0x1_0000 then 1 else 2) + Utf16Length(s[1..])
  }

  /** A string is encoded into at least one and at most four bytes per character. */
  lemma {:induction false} Utf8Length(s: string)
    ensures |s| <= |Utf8(s)| <= 4 * |s|
    ensures Utf8(s) == [] <==> s == []
  {
    if s != [] {
      Utf8Length(s[1..]);
    }
  }

  /** An ASCII string is encoded byte for byte. */
  lemma {:induction false} Utf8OfAscii(s: string)
    requires forall k :: 0 <= k < |s| ==> s[k] as int < 0x80
    ensures |Utf8(s)| == |s|
    ensures forall k :: 0 <= k < |s| ==> Utf8(s)[k] == s[k] as int
  {
    if s != [] {
      Utf8OfAscii(s[1..]);
    }
  }

  // ---------------------------------------------------------------------------
  // Validation
  // ---------------------------------------------------------------------------

  /** The longest message, in UTF-8 bytes, the chat box accepts. */
  const MaxMessageBytes: nat := 500

  /** The flag set the sanitiser is called with. */
  const SanitiseFlags: uint32 := 0x27F

  datatype ChatError =
    | MessageEmpty            // ArgumentException
    | MessageTooLong          // ArgumentException
    | InvalidCharacters       // ArgumentException
    | SanitiserMissing        // InvalidOperationException
    | ChatBoxMissing          // InvalidOperationException

  /**
   * The checks of `SendMessageInternal`, in their order: on success, the bytes
   * handed on to `SendMessageUnsafe`. `sanitise` is the game's sanitiser called
   * with `SanitiseFlags`, None when its signature was not found.
   */
  function ValidateMessage(message: string, sanitise: Option<string -> string>): (r: Result<seq<byte>, ChatError>)
    ensures r == Failure(MessageEmpty) <==> message == []
    ensures r == Failure(MessageTooLong) <==> |Utf8(message)| > MaxMessageBytes
    ensures r == Failure(SanitiserMissing) <==>
      message != [] && |Utf8(message)| <= MaxMessageBytes && sanitise.None?
    ensures r == Failure(InvalidCharacters) <==>
      message != [] && |Utf8(message)| <= MaxMessageBytes && sanitise.Some?
      && Utf16Length(sanitise.value(message)) != Utf16Length(message)
    ensures r.Success? ==> r.value == Utf8(message) && 1 <= |r.value| <= MaxMessageBytes
    ensures r != Failure(ChatBoxMissing)
  {
    Utf8Length(message);
    var bytes := Utf8(message);
    if |bytes| == 0 then Failure(MessageEmpty)
    else if |bytes| > MaxMessageBytes then Failure(MessageTooLong)
    else if sanitise.None? then Failure(SanitiserMissing)
    else if Utf16Length(message) != Utf16Length(sanitise.value(message)) then Failure(InvalidCharacters)
    else Success(bytes)
  }

  /** Exactly 500 bytes is accepted when the sanitiser keeps the message's length. */
  lemma FiveHundredBytesAccepted(message: string, sanitise: string -> string)
    requires |Utf8(message)| == MaxMessageBytes
    requires Utf16Length(sanitise(message)) == Utf16Length(message)
    ensures ValidateMessage(message, Some(sanitise)) == Success(Utf8(message))
  {
    Utf8Length(message);
  }

  // ---------------------------------------------------------------------------
  // The payload
  // ---------------------------------------------------------------------------

  /** Bytes allocated for the text beyond the message itself. */
  const PayloadSlack: nat := 30

  /** The structure passed to the chat-box function: a pointer to the text and three words. */
  class ChatPayload {
    const text: array<byte>
    const textLen: uint64
    const unk1: uint64
    const unk2: uint64

    /** The message as the game reads it: everything before the length's terminator byte. */
    function Message(): seq<byte>
      reads text
      requires 1 <= textLen <= text.Length
    {
      text[..textLen - 1]
    }

    /** A .NET array holds fewer than 2^31 elements, so the length plus one fits `int`. */
    constructor (stringBytes: seq<byte>)
      requires |stringBytes| < 0x7FFF_FFFF
      ensures text.Length == |stringBytes| + PayloadSlack
      ensures text[..|stringBytes|] == stringBytes && text[|stringBytes|] == 0
      ensures textLen == |stringBytes| + 1 && unk1 == 64 && unk2 == 0
      ensures Message() == stringBytes
      ensures fresh(text)
    {
      var buffer := new byte[|stringBytes| + PayloadSlack](_ => 0);
      var k := 0;
      while k < |stringBytes|
        invariant 0 <= k <= |stringBytes|
        invariant buffer[..k] == stringBytes[..k]
        invariant buffer[|stringBytes|] == 0
      {
        buffer[k] := stringBytes[k];
        k := k + 1;
      }
      buffer[|stringBytes|] := 0;
      text := buffer;
      textLen := |stringBytes| + 1;
      unk1 := 64;
      unk2 := 0;
    }
  }

  /** The game-side entry points and what reached the chat box, oldest first. */
  class ChatBox {
    var processChatBox: bool
    var sanitiser: Option<string -> string>
    var delivered: seq<seq<byte>>

    constructor (processChatBox: bool, sanitiser: Option<string -> string>)
      ensures this.processChatBox == processChatBox && this.sanitiser == sanitiser && delivered == []
    {
      this.processChatBox := processChatBox;
      this.sanitiser := sanitiser;
      delivered := [];
    }

    /** `SanitiseText`: fails when the sanitiser's signature was not found. */
    function SanitiseText(text: string): (r: Result<string, ChatError>)
      reads this
      ensures r.Failure? <==> sanitiser.None?
      ensures r.Failure? ==> r.error == SanitiserMissing
    {
      match sanitiser
      case None => Failure(SanitiserMissing)
      case Some(f) => Success(f(text))
    }

    /** `SendMessageUnsafe`: no checks beyond the presence of the chat-box function. */
    method SendMessageUnsafe(message: seq<byte>) returns (r: Result<(), ChatError>)
      requires |message| < 0x7FFF_FFFF
      modifies this`delivered
      ensures r.Failure? <==> !processChatBox
      ensures r.Failure? ==> r.error == ChatBoxMissing && delivered == old(delivered)
      ensures r.Success? ==> delivered == old(delivered) + [message]
    {
      if !processChatBox {
        return Failure(ChatBoxMissing);
      }
      var payload := new ChatPayload(message);
      delivered := delivered + [payload.Message()];
      return Success(());
    }

    /** `SendMessageInternal`: the message reaches the chat box as its UTF-8 bytes, or nothing is sent. */
    method SendMessageInternal(message: string) returns (r: Result<(), ChatError>)
      modifies this`delivered
      ensures ValidateMessage(message, sanitiser).Failure? ==>
        r == Failure(ValidateMessage(message, sanitiser).error) && delivered == old(delivered)
      ensures ValidateMessage(message, sanitiser).Success? && !processChatBox ==>
        r == Failure(ChatBoxMissing) && delivered == old(delivered)
      ensures r.Success? <==> ValidateMessage(message, sanitiser).Success? && processChatBox
      ensures r.Success? ==> delivered == old(delivered) + [Utf8(message)]
    {
      Utf8Length(message);
      var bytes := Utf8(message);
      if |bytes| == 0 {
        return Failure(MessageEmpty);
      } else if |bytes| > MaxMessageBytes {
        return Failure(MessageTooLong);
      }
      var sanitised := SanitiseText(message);
      if sanitised.Failure? {
        return Failure(sanitised.error);
      }
      if Utf16Length(message) != Utf16Length(sanitised.value) {
        return Failure(InvalidCharacters);
      }
      r := SendMessageUnsafe(bytes);
    }
  }
}
