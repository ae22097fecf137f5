/**
 * Resolving the plugin's signature-annotated addresses: normalising a byte-signature
 * string, and the setup loop that resolves every property and collects all failures.
 */
module OffsetManager {
  import opened Wrappers
  import opened Text

  // ---------------------------------------------------------------------------
  // Signature normalisation
  // ---------------------------------------------------------------------------

  /** A token of a normalised signature: not empty, free of `sep`, and without white space at either end. */
  predicate IsToken(t: string, sep: char) {
    t != [] && sep !in t && !IsWhiteSpace(t[0]) && !IsWhiteSpace(t[|t| - 1])
  }

  predicate AllTokens(ts: seq<string>, sep: char) {
    forall k :: 0 <= k < |ts| ==> IsToken(ts[k], sep)
  }

  /** Trims every piece and drops the ones that become empty (TrimEntries | RemoveEmptyEntries). */
  function TrimEntriesRemoveEmpty(pieces: seq<string>): (r: seq<string>)
    ensures |r| <= |pieces|
    ensures forall k :: 0 <= k < |r| ==> r[k] != [] && !IsWhiteSpace(r[k][0]) && !IsWhiteSpace(r[k][|r[k]| - 1])
  {
    if pieces == [] then []
    else
      var t := Trim(pieces[0]);
      var rest := TrimEntriesRemoveEmpty(pieces[1..]);
      if t == [] then rest else [t] + rest
  }

  /** Trimming keeps a character out: the trimmed piece is a slice of the piece. */
  lemma {:induction false} TrimEntriesKeepsOut(pieces: seq<string>, sep: char)
    requires forall k :: 0 <= k < |pieces| ==> sep !in pieces[k]
    ensures AllTokens(TrimEntriesRemoveEmpty(pieces), sep)
  {
    if pieces != [] {
      TrimEntriesKeepsOut(pieces[1..], sep);
      var p := pieces[0];
      var t := Trim(p);
      var i := LeadingCount(p, IsWhiteSpace);
      assert t == p[i..i + |t|];
      assert forall k :: 0 <= k < |t| ==> t[k] == p[i + k];
      assert sep !in t;
    }
  }

  /** Pieces that are already tokens pass through unchanged. */
  lemma {:induction false} TrimEntriesOfTokens(ts: seq<string>, sep: char)
    requires AllTokens(ts, sep)
    ensures TrimEntriesRemoveEmpty(ts) == ts
  {
    if ts != [] {
      TrimOfTrimmed(ts[0], IsWhiteSpace);
      TrimEntriesOfTokens(ts[1..], sep);
      assert [ts[0]] + ts[1..] == ts;
    }
  }

  /** `s.Split(sep, TrimEntries | RemoveEmptyEntries)`. */
  function SplitTokens(s: string, sep: char): (r: seq<string>)
    ensures AllTokens(r, sep)
  {
    TrimEntriesKeepsOut(Split(s, sep), sep);
    TrimEntriesRemoveEmpty(Split(s, sep))
  }

  /** The wildcard written as one character is widened to two. */
  function WidenWildcards(ts: seq<string>): (r: seq<string>)
    ensures |r| == |ts|
    ensures forall k :: 0 <= k < |ts| ==> r[k] == (if ts[k] == "?" then "??" else ts[k])
  {
    seq(|ts|, k requires 0 <= k < |ts| => if ts[k] == "?" then "??" else ts[k])
  }

  /** The normalised form of a signature string. */
  function NormaliseSignature(sig: string): string {
    Join(WidenWildcards(SplitTokens(sig, ' ')), " ")
  }

  /** The tokens of a normalised signature: the input's tokens in order, with "?" widened. */
  function SignatureTokens(sig: string): (ts: seq<string>)
    ensures AllTokens(ts, ' ')
    ensures forall k :: 0 <= k < |ts| ==> ts[k] != "?"
    ensures NormaliseSignature(sig) == Join(ts, " ")
  {
    WidenWildcards(SplitTokens(sig, ' '))
  }

  /**
   * A join of tokens with single spaces: no space at either end and never two
   * spaces in a row.
   */
  lemma {:induction false} JoinOfTokens(ts: seq<string>)
    requires AllTokens(ts, ' ')
    ensures var s := Join(ts, " ");
      && (ts == [] <==> s == [])
      && (s != [] ==> s[0] != ' ' && s[|s| - 1] != ' ')
      && (forall i :: 0 <= i < |s| - 1 ==> s[i] != ' ' || s[i + 1] != ' ')
  {
    if |ts| == 1 {
      assert Join(ts, " ") == ts[0];
    } else if |ts| > 1 {
      JoinOfTokens(ts[1..]);
      var p := ts[0];
      var j := Join(ts[1..], " ");
      var s := Join(ts, " ");
      assert s == p + " " + j;
      assert ' ' !in p;
      forall i | 0 <= i < |s| - 1
        ensures s[i] != ' ' || s[i + 1] != ' '
      {
        if i < |p| {
          assert s[i] == p[i];
        } else if i > |p| {
          assert s[i] == j[i - |p| - 1] && s[i + 1] == j[i - |p|];
        }
      }
    }
  }

  /** A normalised signature consists of non-empty tokens separated by single spaces. */
  lemma NormalisedShape(sig: string)
    ensures var n := NormaliseSignature(sig);
      && (n != [] ==> n[0] != ' ' && n[|n| - 1] != ' ')
      && (forall i :: 0 <= i < |n| - 1 ==> n[i] != ' ' || n[i + 1] != ' ')
      && (n != [] ==> Split(n, ' ') == SignatureTokens(sig))
  {
    var ts := SignatureTokens(sig);
    JoinOfTokens(ts);
    if ts != [] {
      SplitJoin(ts, ' ');
    }
  }

  /** Normalising a normalised signature changes nothing. */
  lemma NormaliseIdempotent(sig: string)
    ensures NormaliseSignature(NormaliseSignature(sig)) == NormaliseSignature(sig)
  {
    var ts := SignatureTokens(sig);
    var n := Join(ts, " ");
    if ts == [] {
      assert Split(n, ' ') == [""];
      assert Trim("") == "";
      assert SplitTokens(n, ' ') == [];
    } else {
      SplitJoin(ts, ' ');
      TrimEntriesOfTokens(ts, ' ');
      assert SplitTokens(n, ' ') == ts;
      assert WidenWildcards(ts) == ts;
    }
  }

  // ---------------------------------------------------------------------------
  // The setup loop
  // ---------------------------------------------------------------------------

  /** The subtype of a property's signature attribute. */
  datatype SigKind = StaticAddressAttribute | FunctionAttribute | OffsetAttribute | OtherAttribute

  /** A signature-annotated property of the offsets class. */
  datatype SigProperty = SigProperty(name: string, kind: SigKind, sigString: string, offset: int)

  /**
   * The signature scanner: the address each scan finds for a normalised signature,
   * or None when the scan throws.
   */
  datatype Scanner = Scanner(getStaticAddressFromSig: string -> Option<int>, scanText: string -> Option<int>)

  /** What a property is set to: an address, or the structure read at an address. */
  datatype PropertyValue = Address(address: int) | StructureAt(address: int)

  /** The exceptions collected by the loop, each naming its property. */
  datatype SetupError =
    | ArgumentOutOfRange(property: string)
    | ScanFailed(property: string)
    | ReadFailed(property: string)

  /** The address the scanner finds, before the attribute's offset; 0 without a scanner. */
  function ScanBase(p: SigProperty, scanner: Option<Scanner>): Option<int> {
    var sig := NormaliseSignature(p.sigString);
    match scanner
    case None => Some(0)
    case Some(sc) =>
      if p.kind == StaticAddressAttribute then sc.getStaticAddressFromSig(sig) else sc.scanText(sig)
  }

  /**
   * One iteration of the loop: the value the property is set to, or the exception
   * recorded for it. `canRead` says whether a structure can be read at an address.
   */
  function Resolve(p: SigProperty, scanner: Option<Scanner>, canRead: int -> bool): (r: Result<PropertyValue, SetupError>)
    ensures r == Failure(ArgumentOutOfRange(p.name)) <==> p.kind == OtherAttribute
    ensures r.Success? ==> ScanBase(p, scanner).Some? && r.value.address == ScanBase(p, scanner).value + p.offset
    ensures r.Success? ==> (r.value.StructureAt? <==> p.kind == OffsetAttribute)
    ensures r.Failure? ==> r.error.property == p.name
  {
    if p.kind == OtherAttribute then Failure(ArgumentOutOfRange(p.name))
    else match ScanBase(p, scanner)
      case None => Failure(ScanFailed(p.name))
      case Some(base) =>
        var address := base + p.offset;
        if p.kind != OffsetAttribute then Success(Address(address))
        else if canRead(address) then Success(StructureAt(address))
        else Failure(ReadFailed(p.name))
  }

  /** The exceptions of the properties in order. */
  function Failures(ps: seq<SigProperty>, scanner: Option<Scanner>, canRead: int -> bool): (es: seq<SetupError>)
    ensures |es| <= |ps|
    ensures es == [] <==> forall k :: 0 <= k < |ps| ==> Resolve(ps[k], scanner, canRead).Success?
  {
    if ps == [] then []
    else
      var last := Resolve(ps[|ps| - 1], scanner, canRead);
      Failures(ps[..|ps| - 1], scanner, canRead) + (if last.Failure? then [last.error] else [])
  }

  /** The property values after the properties in `ps` are set in order. */
  function Applied(values: map<string, PropertyValue>, ps: seq<SigProperty>, scanner: Option<Scanner>, canRead: int -> bool)
    : map<string, PropertyValue>
  {
    if ps == [] then values
    else
      var before := Applied(values, ps[..|ps| - 1], scanner, canRead);
      var last := ps[|ps| - 1];
      match Resolve(last, scanner, canRead)
      case Success(v) => before[last.name := v]
      case Failure(_) => before
  }

  predicate DistinctNames(ps: seq<SigProperty>) {
    forall i, j :: 0 <= i < j < |ps| ==> ps[i].name != ps[j].name
  }

  /**
   * With distinct names, every property that resolves holds its value, and every
   * other name keeps the value it had: a failure never stops the others.
   */
  lemma {:induction false} AppliedValues(values: map<string, PropertyValue>, ps: seq<SigProperty>, scanner: Option<Scanner>, canRead: int -> bool)
    requires DistinctNames(ps)
    ensures var m := Applied(values, ps, scanner, canRead);
      && (forall k :: 0 <= k < |ps| && Resolve(ps[k], scanner, canRead).Success? ==>
            ps[k].name in m && m[ps[k].name] == Resolve(ps[k], scanner, canRead).value)
      && (forall name :: (forall k :: 0 <= k < |ps| && Resolve(ps[k], scanner, canRead).Success? ==> ps[k].name != name) ==>
            (name in m <==> name in values) && (name in m ==> m[name] == values[name]))
  {
    var m := Applied(values, ps, scanner, canRead);
    forall k | 0 <= k < |ps| && Resolve(ps[k], scanner, canRead).Success?
      ensures ps[k].name in m && m[ps[k].name] == Resolve(ps[k], scanner, canRead).value
    {
      AppliedResolved(values, ps, scanner, canRead, k);
    }
    forall name | (forall k :: 0 <= k < |ps| && Resolve(ps[k], scanner, canRead).Success? ==> ps[k].name != name)
      ensures (name in m <==> name in values) && (name in m ==> m[name] == values[name])
    {
      AppliedUntouched(values, ps, scanner, canRead, name);
    }
  }

  /** A property that resolves holds its value once all are set, no later property having its name. */
  lemma {:induction false} AppliedResolved(values: map<string, PropertyValue>, ps: seq<SigProperty>, scanner: Option<Scanner>,
                                           canRead: int -> bool, k: nat)
    requires DistinctNames(ps) && k < |ps| && Resolve(ps[k], scanner, canRead).Success?
    ensures var m := Applied(values, ps, scanner, canRead);
      ps[k].name in m && m[ps[k].name] == Resolve(ps[k], scanner, canRead).value
    decreases |ps|
  {
    var init := ps[..|ps| - 1];
    if k < |ps| - 1 {
      assert init[k] == ps[k];
      assert DistinctNames(init) by {
        forall i, j | 0 <= i < j < |init|
          ensures init[i].name != init[j].name
        {
          assert init[i] == ps[i] && init[j] == ps[j];
        }
      }
      AppliedResolved(values, init, scanner, canRead, k);
      assert ps[|ps| - 1].name != ps[k].name;
    }
  }

  /** A name no resolving property has keeps the value it had, or stays absent. */
  lemma {:induction false} AppliedUntouched(values: map<string, PropertyValue>, ps: seq<SigProperty>, scanner: Option<Scanner>,
                                            canRead: int -> bool, name: string)
    requires forall k :: 0 <= k < |ps| && Resolve(ps[k], scanner, canRead).Success? ==> ps[k].name != name
    ensures var m := Applied(values, ps, scanner, canRead);
      (name in m <==> name in values) && (name in m ==> m[name] == values[name])
    decreases |ps|
  {
    if ps != [] {
      var init := ps[..|ps| - 1];
      forall k | 0 <= k < |init| && Resolve(init[k], scanner, canRead).Success?
        ensures init[k].name != name
      {
        assert init[k] == ps[k];
      }
      AppliedUntouched(values, init, scanner, canRead, name);
    }
  }

  /** Setting one more property: its value is recorded when it resolves, its exception when it does not. */
  lemma SetupStep(values: map<string, PropertyValue>, ps: seq<SigProperty>, i: nat, scanner: Option<Scanner>, canRead: int -> bool)
    requires i < |ps|
    ensures var r := Resolve(ps[i], scanner, canRead);
      Applied(values, ps[..i + 1], scanner, canRead) ==
        (if r.Success? then Applied(values, ps[..i], scanner, canRead)[ps[i].name := r.value]
         else Applied(values, ps[..i], scanner, canRead))
    ensures var r := Resolve(ps[i], scanner, canRead);
      Failures(ps[..i + 1], scanner, canRead) ==
        Failures(ps[..i], scanner, canRead) + (if r.Failure? then [r.error] else [])
  {
    var done := ps[..i + 1];
    assert done[..|done| - 1] == ps[..i] && done[|done| - 1] == ps[i];
  }

  /** The static properties of the offsets class, by name. */
  class Offsets {
    var properties: map<string, PropertyValue>

    constructor ()
      ensures properties == map[]
    {
      properties := map[];
    }

    /**
     * `Setup`: resolves every property in order, recording each failure and going on;
     * fails with all the recorded exceptions (AggregateException) iff there was one.
     */
    method Setup(props: seq<SigProperty>, scanner: Option<Scanner>, canRead: int -> bool) returns (r: Result<(), seq<SetupError>>)
      modifies this
      ensures properties == Applied(old(properties), props, scanner, canRead)
      ensures r.Failure? <==> Failures(props, scanner, canRead) != []
      ensures r.Failure? ==> r.error == Failures(props, scanner, canRead)
    {
      var exceptions: seq<SetupError> := [];
      var i := 0;
      while i < |props|
        invariant 0 <= i <= |props|
        invariant properties == Applied(old(properties), props[..i], scanner, canRead)
        invariant exceptions == Failures(props[..i], scanner, canRead)
      {
        var p := props[i];
        var resolved := Resolve(p, scanner, canRead);
        SetupStep(old(properties), props, i, scanner, canRead);
        if resolved.Success? {
          properties := properties[p.name := resolved.value];
        } else {
          exceptions := exceptions + [resolved.error];
        }
        i := i + 1;
      }
      assert props[..i] == props;
      if |exceptions| != 0 {
        return Failure(exceptions);
      }
      return Success(());
    }
  }
}
