/**
 * The machine (enigma/enigma.go): assembling plugboard, reflector and at
 * least three rotors, the double-stepping advance of rotors 0..2, the signal
 * path of one key press and the encoding of a message.
 *
 * MachineModel is the machine's state as a value and carries the theorems
 * (stepping rule, the path as an involution without fixed points,
 * reciprocity of whole messages). The class Enigma holds the rotor objects
 * the source mutates; its methods are proved against those functions
 * through its abstraction function Model.
 */
module Machine {
  import opened Results
  import opened Rotors
  import Plugboards

  /** NewEnigma refuses fewer rotors than this. */
  const MinRotors := 3

  datatype MachineModel = MachineModel(
    plugs: Plugboards.Plugboard, rotors: seq<RotorModel>, reflector: RotorModel)

  predicate AllValid(rs: seq<RotorModel>) {
    forall i :: 0 <= i < |rs| ==> ValidModel(rs[i])
  }

  /** What every assembled machine satisfies. */
  predicate WellFormed(m: MachineModel) {
    && Plugboards.Matching(m.plugs.connections)
    && |m.rotors| >= MinRotors
    && AllValid(m.rotors)
    && ValidModel(m.reflector)
  }

  /** A wiring whose forward table is its own inverse. */
  predicate SelfInverse(w: Wiring) {
    Bijective(w) && w.forward == w.backward
  }

  /** A wiring that sends no slot to itself. */
  predicate FixedPointFree(w: Wiring)
    requires WellFormedWiring(w)
  {
    forall j :: 0 <= j < 26 ==> w.forward[j] != j
  }

  /** Full rotor tables and a reflecting reflector: the machine is its own inverse. */
  predicate Reciprocal(m: MachineModel) {
    && WellFormed(m)
    && (forall i :: 0 <= i < |m.rotors| ==> Bijective(m.rotors[i].connections))
    && SelfInverse(m.reflector.connections)
  }

  // ---------------------------------------------------------------------
  // Cycle: the stepping of rotors 0, 1 and 2
  // ---------------------------------------------------------------------

  /** The machine after one Cycle, in the source's order of tests and steps. */
  function Stepped(m: MachineModel): (r: MachineModel)
    requires |m.rotors| >= MinRotors
    ensures |r.rotors| == |m.rotors|
    ensures WellFormed(m) ==> WellFormed(r)
  {
    var rs := m.rotors;
    var cycle1 := IsNotchEngaged(rs[0]) || IsNotchEngaged(rs[1]);
    var cycle2 := IsNotchEngaged(rs[1]);
    var rs := rs[0 := Cycled(rs[0])];
    var rs := if cycle1 then rs[1 := Cycled(rs[1])] else rs;
    var rs := if cycle2 then rs[2 := Cycled(rs[2])] else rs;
    m.(rotors := rs)
  }

  /**
   * The stepping rule: rotor 0 always advances; rotor 1 advances when rotor
   * 0 or rotor 1 was at a notch; rotor 2 when rotor 1 was at a notch; wiring,
   * notches, the other rotors, the reflector and the plugboard stay as they are.
   */
  lemma SteppingRule(m: MachineModel)
    requires |m.rotors| >= MinRotors
    ensures var r := Stepped(m);
      && r.plugs == m.plugs && r.reflector == m.reflector
      && (forall i :: 0 <= i < |m.rotors| ==>
            r.rotors[i].connections == m.rotors[i].connections && r.rotors[i].notches == m.rotors[i].notches)
      && r.rotors[0].position == (m.rotors[0].position + 1) % 26
      && r.rotors[1].position ==
           (if m.rotors[0].position in m.rotors[0].notches || m.rotors[1].position in m.rotors[1].notches
            then (m.rotors[1].position + 1) % 26 else m.rotors[1].position)
      && r.rotors[2].position ==
           (if m.rotors[1].position in m.rotors[1].notches
            then (m.rotors[2].position + 1) % 26 else m.rotors[2].position)
      && (forall i :: MinRotors <= i < |m.rotors| ==> r.rotors[i] == m.rotors[i])
  {
  }

  /** The machine after n key presses. */
  function Steps(m: MachineModel, n: nat): (r: MachineModel)
    requires |m.rotors| >= MinRotors
    ensures |r.rotors| == |m.rotors|
    ensures WellFormed(m) ==> WellFormed(r)
  {
    if n == 0 then m else Stepped(Steps(m, n - 1))
  }

  /** Rotor 0 moves on every key press. */
  lemma {:induction false} FastRotorPeriod(m: MachineModel, n: nat)
    requires |m.rotors| >= MinRotors && 0 <= m.rotors[0].position < 26
    ensures Steps(m, n).rotors[0].position == (m.rotors[0].position + n) % 26
  {
    if n > 0 {
      var prev := Steps(m, n - 1);
      assert Steps(m, n) == Stepped(prev);
      FastRotorPeriod(m, n - 1);
      FastRotorStep(prev);
      ModSucc(m.rotors[0].position + n - 1);
    }
  }

  lemma FastRotorStep(m: MachineModel)
    requires |m.rotors| >= MinRotors && 0 <= m.rotors[0].position < 26
    ensures Stepped(m).rotors[0].position == (m.rotors[0].position + 1) % 26
  {
  }

  lemma ModSucc(a: nat)
    ensures (a % 26 + 1) % 26 == (a + 1) % 26
  {
  }

  /** So rotor 0 is back where it was after every 26 key presses. */
  lemma FastRotorReturns(m: MachineModel, n: nat)
    requires |m.rotors| >= MinRotors && 0 <= m.rotors[0].position < 26
    ensures Steps(m, n + 26).rotors[0].position == Steps(m, n).rotors[0].position
  {
    FastRotorPeriod(m, n);
    FastRotorPeriod(m, n + 26);
    ModPeriod(m.rotors[0].position + n);
  }

  lemma ModPeriod(a: nat)
    ensures (a + 26) % 26 == a % 26
  {
  }

  /**
   * The double step: when rotor 0 is at its notch and rotor 1 one short of
   * its notch, the first key press moves rotor 1 onto its notch and the
   * second moves rotor 1 again, together with rotor 2.
   */
  lemma DoubleStep(m: MachineModel)
    requires WellFormed(m)
    requires m.rotors[0].position in m.rotors[0].notches
    requires m.rotors[1].position !in m.rotors[1].notches
    requires (m.rotors[1].position + 1) % 26 in m.rotors[1].notches
    ensures var m1 := Stepped(m);
      && m1.rotors[1].position == (m.rotors[1].position + 1) % 26
      && m1.rotors[2].position == m.rotors[2].position
    ensures var m2 := Stepped(Stepped(m));
      && m2.rotors[1].position == (m.rotors[1].position + 2) % 26
      && m2.rotors[2].position == (m.rotors[2].position + 1) % 26
  {
    SteppingRule(m);
    SteppingRule(Stepped(m));
  }

  // ---------------------------------------------------------------------
  // Encode: the signal path
  // ---------------------------------------------------------------------

  /** Through the rotors from the first to the last, forwards. */
  function Forward(rs: seq<RotorModel>, x: int): (y: int)
    requires AllValid(rs) && 0 <= x < 26
    ensures 0 <= y < 26
    decreases |rs|
  {
    if |rs| == 0 then x
    else Rotors.Traverse(rs[|rs| - 1], Forward(rs[..|rs| - 1], x), true)
  }

  /** Back through the rotors from the last to the first. */
  function Backward(rs: seq<RotorModel>, y: int): (x: int)
    requires AllValid(rs) && 0 <= y < 26
    ensures 0 <= x < 26
    decreases |rs|
  {
    if |rs| == 0 then y
    else Backward(rs[..|rs| - 1], Rotors.Traverse(rs[|rs| - 1], y, false))
  }

  /** With full tables the way back undoes the way forward, and the other way round. */
  lemma {:induction false} ForwardBackward(rs: seq<RotorModel>, x: int)
    requires AllValid(rs) && 0 <= x < 26
    requires forall i :: 0 <= i < |rs| ==> Bijective(rs[i].connections)
    ensures Backward(rs, Forward(rs, x)) == x
    ensures Forward(rs, Backward(rs, x)) == x
    decreases |rs|
  {
    if |rs| > 0 {
      var init, last := rs[..|rs| - 1], rs[|rs| - 1];
      TraverseRoundTrip(last, Forward(init, x));
      ForwardBackward(init, x);
      TraverseRoundTrip(last, x);
      ForwardBackward(init, Rotors.Traverse(last, x, false));
    }
  }

  /** The reflector's traversal is its own inverse when its table is. */
  lemma ReflectTwice(m: RotorModel, x: int)
    requires ValidModel(m) && SelfInverse(m.connections) && 0 <= x < 26
    ensures Rotors.Traverse(m, Rotors.Traverse(m, x, true), true) == x
  {
    TraverseRoundTrip(m, x);
  }

  /** The reflector sends no symbol to itself when its table fixes no slot. */
  lemma ReflectMoves(m: RotorModel, x: int)
    requires ValidModel(m) && Bijective(m.connections) && FixedPointFree(m.connections) && 0 <= x < 26
    ensures Rotors.Traverse(m, x, true) != x
  {
    assert m.connections.forward[(x + m.position) % 26] != (x + m.position) % 26;
  }

  /** The rotors forwards, the reflector, and the rotors backwards. */
  function Reflected(m: MachineModel, x: int): (y: int)
    requires WellFormed(m) && 0 <= x < 26
    ensures 0 <= y < 26
  {
    Backward(m.rotors, Rotors.Traverse(m.reflector, Forward(m.rotors, x), true))
  }

  /** The path of a key press through a machine that has already stepped. */
  function SignalPath(m: MachineModel, x: int): (y: int)
    requires WellFormed(m) && 0 <= x < 26
    ensures 0 <= y < 26
  {
    Plugboards.Traverse(m.plugs, Reflected(m, Plugboards.Traverse(m.plugs, x)))
  }

  /** Pressing the output key in the same state lights the input key. */
  lemma PathInvolution(m: MachineModel, x: int)
    requires Reciprocal(m) && 0 <= x < 26
    ensures SignalPath(m, SignalPath(m, x)) == x
  {
    var p := m.plugs;
    var entered := Plugboards.Traverse(p, x);
    var forward := Forward(m.rotors, entered);
    var reflected := Rotors.Traverse(m.reflector, forward, true);
    var back := Backward(m.rotors, reflected);
    var y := Plugboards.Traverse(p, back);
    Plugboards.TraverseInvolution(p, back);
    ForwardBackward(m.rotors, reflected);
    ReflectTwice(m.reflector, forward);
    ForwardBackward(m.rotors, entered);
    Plugboards.TraverseInvolution(p, x);
  }

  /** No letter is ever enciphered to itself. */
  lemma NoSelfEncryption(m: MachineModel, x: int)
    requires Reciprocal(m) && FixedPointFree(m.reflector.connections) && 0 <= x < 26
    ensures SignalPath(m, x) != x
  {
    var p := m.plugs;
    var entered := Plugboards.Traverse(p, x);
    var forward := Forward(m.rotors, entered);
    var reflected := Rotors.Traverse(m.reflector, forward, true);
    var back := Backward(m.rotors, reflected);
    ReflectMoves(m.reflector, forward);
    ForwardBackward(m.rotors, reflected);
    Plugboards.TraverseInvolution(p, back);
    Plugboards.TraverseInvolution(p, x);
  }

  /** Encode: step first, then run the path. */
  function EncodeSymbol(m: MachineModel, x: int): (y: int)
    requires WellFormed(m) && 0 <= x < 26
    ensures 0 <= y < 26
  {
    SignalPath(Stepped(m), x)
  }

  // ---------------------------------------------------------------------
  // EncodeString
  // ---------------------------------------------------------------------

  /** The lamp that lights when key c is pressed on machine m. */
  function KeyPress(m: MachineModel, c: char): (e: char)
    requires WellFormed(m) && IsAllowedCharacter(c)
    ensures IsAllowedCharacter(e)
  {
    Letter(EncodeSymbol(m, Index(c)))
  }

  /** The ciphertext and the machine afterwards. */
  datatype Encoding = Encoding(cipher: string, after: MachineModel)

  /** The length of the longest prefix of upper-case letters. */
  function LetterPrefix(s: string): (n: nat)
    ensures n <= |s|
    ensures forall k :: 0 <= k < n ==> IsAllowedCharacter(s[k])
    ensures n < |s| ==> !IsAllowedCharacter(s[n])
  {
    if |s| == 0 || !IsAllowedCharacter(s[0]) then 0
    else
      var n := 1 + LetterPrefix(s[1..]);
      assert forall k :: 1 <= k < n ==> s[k] == s[1..][k - 1];
      n
  }

  /**
   * The first n key presses of a message, one after the other: each letter
   * is enciphered by the machine the previous presses left.
   */
  function Typed(m: MachineModel, s: string, n: nat): (r: Encoding)
    requires WellFormed(m) && n <= LetterPrefix(s)
    ensures |r.cipher| == n && WellFormed(r.after)
    decreases n
  {
    if n == 0 then Encoding([], m)
    else
      var t := Typed(m, s, n - 1);
      Encoding(t.cipher + [KeyPress(t.after, s[n - 1])], Stepped(t.after))
  }

  /**
   * EncodeString: the letters are enciphered in turn up to the first
   * character that is not a letter; the machine steps once per letter.
   */
  function EncodeMessage(m: MachineModel, s: string): (r: Encoding)
    requires WellFormed(m)
    ensures |r.cipher| == LetterPrefix(s) && WellFormed(r.after)
  {
    Typed(m, s, LetterPrefix(s))
  }

  /** Each key press steps the machine once. */
  lemma {:induction false} TypedAfter(m: MachineModel, s: string, n: nat)
    requires WellFormed(m) && n <= LetterPrefix(s)
    ensures Typed(m, s, n).after == Steps(m, n)
    decreases n
  {
    if n > 0 {
      TypedAfter(m, s, n - 1);
    }
  }

  /** The machine ends stepped once per enciphered letter. */
  lemma EncodeMessageSteps(m: MachineModel, s: string)
    requires WellFormed(m)
    ensures EncodeMessage(m, s).after == Steps(m, LetterPrefix(s))
  {
    TypedAfter(m, s, LetterPrefix(s));
  }

  /** The letters of the first n key presses. */
  function Ciphered(m: MachineModel, s: string, n: nat): (c: string)
    requires WellFormed(m) && n <= LetterPrefix(s)
    ensures |c| == n
  {
    Typed(m, s, n).cipher
  }

  /** The n-th key press extends the ciphertext of the first n - 1. */
  lemma TypedStep(m: MachineModel, s: string, n: nat)
    requires WellFormed(m) && 0 < n <= LetterPrefix(s)
    ensures Ciphered(m, s, n - 1) == Ciphered(m, s, n)[..n - 1]
  {
  }

  /**
   * In a chain of strings each extending the one before by one letter,
   * a letter once written stays.
   */
  lemma {:induction false} ChainKeeps(chain: seq<string>, k: nat, n: nat)
    requires forall j :: 0 < j < |chain| ==> |chain[j]| == j && chain[j - 1] == chain[j][..j - 1]
    requires k < n < |chain|
    ensures chain[n][k] == chain[k + 1][k]
    decreases n
  {
    if n != k + 1 {
      ChainKeeps(chain, k, n - 1);
      assert chain[n - 1] == chain[n][..n - 1];
    }
  }

  /** The k-th letter is the lamp lit by the k-th key on the machine the first k presses left. */
  lemma TypedLast(m: MachineModel, s: string, k: nat)
    requires WellFormed(m) && k < LetterPrefix(s)
    ensures Typed(m, s, k + 1).cipher[k] == KeyPress(Typed(m, s, k).after, s[k])
  {
    var t := Typed(m, s, k);
    assert Typed(m, s, k + 1).cipher == t.cipher + [KeyPress(t.after, s[k])];
  }

  /** Later key presses leave the letters already enciphered as they are. */
  lemma TypedKeeps(m: MachineModel, s: string, k: nat, n: nat)
    requires WellFormed(m) && k < n <= LetterPrefix(s)
    ensures Ciphered(m, s, n)[k] == Ciphered(m, s, k + 1)[k]
  {
    var chain := seq(n + 1, j requires 0 <= j <= n => Ciphered(m, s, j));
    forall j | 0 < j < |chain|
      ensures |chain[j]| == j && chain[j - 1] == chain[j][..j - 1]
    {
      TypedStep(m, s, j);
    }
    ChainKeeps(chain, k, n);
  }

  /** The k-th letter of the ciphertext is the k-th key enciphered on the machine stepped k times. */
  lemma EncodeMessageLetter(m: MachineModel, s: string, k: nat)
    requires WellFormed(m) && k < LetterPrefix(s)
    ensures EncodeMessage(m, s).cipher[k] == KeyPress(Steps(m, k), s[k])
  {
    TypedKeeps(m, s, k, LetterPrefix(s));
    TypedLast(m, s, k);
    TypedAfter(m, s, k);
  }

  /** The ciphertext is upper case. */
  lemma EncodeMessageUpper(m: MachineModel, s: string)
    requires WellFormed(m)
    ensures AllAllowed(EncodeMessage(m, s).cipher)
  {
    forall k | 0 <= k < LetterPrefix(s)
      ensures IsAllowedCharacter(EncodeMessage(m, s).cipher[k])
    {
      EncodeMessageLetter(m, s, k);
    }
  }

  /** On an all-letter message the ciphertext has the message's length. */
  lemma EncodeMessageLength(m: MachineModel, s: string)
    requires WellFormed(m) && AllAllowed(s)
    ensures |EncodeMessage(m, s).cipher| == |s|
    ensures EncodeMessage(m, s).after == Steps(m, |s|)
  {
    WholeLetterPrefix(s);
    EncodeMessageSteps(m, s);
  }

  /** A message of letters only is its own letter prefix. */
  lemma {:induction false} WholeLetterPrefix(s: string)
    requires AllAllowed(s)
    ensures LetterPrefix(s) == |s|
    decreases |s|
  {
    if |s| > 0 {
      WholeLetterPrefix(s[1..]);
    }
  }

  /** Key presses depend only on the letters pressed so far. */
  lemma {:induction false} TypedPrefix(m: MachineModel, s: string, t: string, n: nat)
    requires WellFormed(m) && n <= LetterPrefix(s) && n <= LetterPrefix(t)
    requires forall k :: 0 <= k < n ==> s[k] == t[k]
    ensures Typed(m, s, n) == Typed(m, t, n)
    decreases n
  {
    if n > 0 {
      TypedPrefix(m, s, t, n - 1);
    }
  }

  /**
   * Everything from the first non-letter on is ignored: it neither adds to
   * the ciphertext nor steps the rotors.
   */
  lemma EncodeMessageStops(m: MachineModel, s: string)
    requires WellFormed(m)
    ensures EncodeMessage(m, s) == EncodeMessage(m, s[..LetterPrefix(s)])
  {
    var n := LetterPrefix(s);
    var t := s[..n];
    PrefixOfPrefix(s);
    TypedPrefix(m, s, t, n);
  }

  /** The letter prefix of the letter prefix is itself. */
  lemma PrefixOfPrefix(s: string)
    ensures LetterPrefix(s[..LetterPrefix(s)]) == LetterPrefix(s)
  {
    var t := s[..LetterPrefix(s)];
    assert AllAllowed(t);
    WholeLetterPrefix(t);
  }

  /**
   * Reciprocity: enciphering the ciphertext from the same starting state
   * gives the message back.
   */
  lemma EncodeMessageReciprocal(m: MachineModel, s: string)
    requires Reciprocal(m) && AllAllowed(s)
    ensures EncodeMessage(m, EncodeMessage(m, s).cipher).cipher == s
  {
    var d := EncodeMessage(m, EncodeMessage(m, s).cipher).cipher;
    forall k | 0 <= k < |s|
      ensures |d| == |s| && d[k] == s[k]
    {
      ReciprocalAt(m, s, k);
    }
    if |s| == 0 {
      EncodeMessageLength(m, s);
      EncodeMessageLength(m, EncodeMessage(m, s).cipher);
    }
  }

  /** The k-th letter of the twice enciphered message is the k-th letter of the message. */
  lemma ReciprocalAt(m: MachineModel, s: string, k: nat)
    requires Reciprocal(m) && AllAllowed(s) && k < |s|
    ensures |EncodeMessage(m, EncodeMessage(m, s).cipher).cipher| == |s|
    ensures EncodeMessage(m, EncodeMessage(m, s).cipher).cipher[k] == s[k]
  {
    var c := EncodeMessage(m, s).cipher;
    EncodeMessageLength(m, s);
    EncodeMessageUpper(m, s);
    EncodeMessageLength(m, c);
    EncodeMessageLetter(m, s, k);
    EncodeMessageLetter(m, c, k);
    var mk := Steps(m, k);
    StepsReciprocal(m, k);
    SymbolReciprocal(mk, Index(s[k]));
    LetterOfIndex(s[k]);
  }

  /** A key press from the same state undoes the previous one. */
  lemma SymbolReciprocal(m: MachineModel, x: int)
    requires Reciprocal(m) && 0 <= x < 26
    ensures EncodeSymbol(m, EncodeSymbol(m, x)) == x
  {
    SteppedReciprocal(m);
    PathInvolution(Stepped(m), x);
  }

  /** Stepping keeps the tables, so it keeps a machine reciprocal. */
  lemma SteppedReciprocal(m: MachineModel)
    requires Reciprocal(m)
    ensures Reciprocal(Stepped(m))
  {
    SteppingRule(m);
  }

  lemma {:induction false} StepsReciprocal(m: MachineModel, n: nat)
    requires Reciprocal(m)
    ensures Reciprocal(Steps(m, n)) && Steps(m, n).reflector == m.reflector
  {
    if n > 0 {
      StepsReciprocal(m, n - 1);
      SteppedReciprocal(Steps(m, n - 1));
      SteppingRule(Steps(m, n - 1));
    }
  }

  /** A key press never lights the lamp of its own key. */
  lemma SymbolMoves(m: MachineModel, x: int)
    requires Reciprocal(m) && FixedPointFree(m.reflector.connections) && 0 <= x < 26
    ensures EncodeSymbol(m, x) != x
  {
    SteppingRule(m);
    SteppedReciprocal(m);
    NoSelfEncryption(Stepped(m), x);
  }

  /** No letter of an enciphered message equals the letter it came from. */
  lemma EncodeMessageNoFixedLetter(m: MachineModel, s: string)
    requires Reciprocal(m) && FixedPointFree(m.reflector.connections)
    ensures forall k :: 0 <= k < |EncodeMessage(m, s).cipher| ==> EncodeMessage(m, s).cipher[k] != s[k]
  {
    var r := EncodeMessage(m, s);
    forall k | 0 <= k < |r.cipher|
      ensures r.cipher[k] != s[k]
    {
      EncodeMessageLetter(m, s, k);
      StepsReciprocal(m, k);
      var mk := Steps(m, k);
      SteppedReciprocal(mk);
      SteppingRule(mk);
      NoSelfEncryption(Stepped(mk), Index(s[k]));
      LetterOfIndex(s[k]);
    }
  }

  // ---------------------------------------------------------------------
  // NewEnigma
  // ---------------------------------------------------------------------

  /** One case per rejecting branch of NewEnigma. */
  datatype MachineError =
    | PlugboardFailed(plugError: Plugboards.PlugboardError)
    | ReflectorFailed(reflectorError: RotorError)
    | InsufficientRotors(count: nat)
    | RotorFailed(name: string, configuration: string)

  /** The reflector's configuration: named "reflector", position 0, ring 0, no notches. */
  function ReflectorConfiguration(wiring: string): RotorConfiguration {
    RotorConfiguration("reflector", wiring, 0, 0, [])
  }

  predicate RingSettingsInRange(confs: seq<RotorConfiguration>) {
    forall i :: 0 <= i < |confs| ==> 0 <= confs[i].ringSetting < 26
  }

  /** The rotors built in order; on failure, the index of the first that fails. */
  function BuildRotors(confs: seq<RotorConfiguration>): (r: Result<seq<RotorModel>, nat>)
    requires RingSettingsInRange(confs)
    ensures r.Ok? <==> forall i :: 0 <= i < |confs| ==> RotorOf(confs[i]).Ok?
    ensures r.Ok? ==> |r.value| == |confs| && forall i :: 0 <= i < |confs| ==> Ok(r.value[i]) == RotorOf(confs[i])
    ensures r.Err? ==>
      r.error < |confs| && RotorOf(confs[r.error]).Err? && forall i :: 0 <= i < r.error ==> RotorOf(confs[i]).Ok?
    decreases |confs|
  {
    if |confs| == 0 then Ok([])
    else
      var prefix := confs[..|confs| - 1];
      assert forall i :: 0 <= i < |prefix| ==> prefix[i] == confs[i];
      var init := BuildRotors(prefix);
      if init.Err? then init
      else
        var last := RotorOf(confs[|confs| - 1]);
        if last.Err? then Err(|confs| - 1) else Ok(init.value + [last.value])
  }

  /**
   * What NewEnigma builds: the plugboard first, then the reflector, then the
   * rotor count, then each rotor in turn.
   */
  function Assemble(confs: seq<RotorConfiguration>, reflector: string, plugs: seq<seq<int>>)
    : (r: Result<MachineModel, MachineError>)
    requires RingSettingsInRange(confs)
    ensures r.Ok? <==>
      && Plugboards.BuildPlugboard(plugs).Ok?
      && RotorOf(ReflectorConfiguration(reflector)).Ok?
      && |confs| >= MinRotors
      && (forall i :: 0 <= i < |confs| ==> RotorOf(confs[i]).Ok?)
    ensures r.Ok? ==>
      && WellFormed(r.value)
      && r.value.plugs == Plugboards.BuildPlugboard(plugs).value
      && Ok(r.value.reflector) == RotorOf(ReflectorConfiguration(reflector))
      && |r.value.rotors| == |confs|
      && (forall i :: 0 <= i < |confs| ==> Ok(r.value.rotors[i]) == RotorOf(confs[i]))
    ensures Plugboards.BuildPlugboard(plugs).Err? ==>
      r == Err(PlugboardFailed(Plugboards.BuildPlugboard(plugs).error))
    ensures r.Err? && r.error.RotorFailed? ==>
      exists i :: 0 <= i < |confs| && RotorOf(confs[i]).Err?
        && r.error == RotorFailed(confs[i].name, confs[i].configuration)
    ensures Plugboards.BuildPlugboard(plugs).Ok? && RotorOf(ReflectorConfiguration(reflector)).Err? ==>
      r == Err(ReflectorFailed(RotorOf(ReflectorConfiguration(reflector)).error))
    ensures && Plugboards.BuildPlugboard(plugs).Ok? && RotorOf(ReflectorConfiguration(reflector)).Ok?
            && |confs| < MinRotors ==>
      r == Err(InsufficientRotors(|confs|))
    ensures r.Err? && r.error.RotorFailed? ==>
      && BuildRotors(confs).Err?
      && r.error == RotorFailed(confs[BuildRotors(confs).error].name, confs[BuildRotors(confs).error].configuration)
  {
    var p := Plugboards.BuildPlugboard(plugs);
    if p.Err? then Err(PlugboardFailed(p.error))
    else
      var ref := RotorOf(ReflectorConfiguration(reflector));
      if ref.Err? then Err(ReflectorFailed(ref.error))
      else if |confs| < MinRotors then Err(InsufficientRotors(|confs|))
      else
        var rs := BuildRotors(confs);
        if rs.Err? then Err(RotorFailed(confs[rs.error].name, confs[rs.error].configuration))
        else
          Plugboards.PlugboardShape(plugs);
          Ok(MachineModel(p.value, rs.value, ref.value))
  }

  /**
   * Built from 26-letter wirings, every rotor table is full; a reflector
   * wiring that is its own inverse gives a self-inverse reflector table.
   */
  lemma AssembledReciprocal(confs: seq<RotorConfiguration>, reflector: string, plugs: seq<seq<int>>)
    requires RingSettingsInRange(confs) && Assemble(confs, reflector, plugs).Ok?
    requires forall i :: 0 <= i < |confs| ==> |confs[i].configuration| == 26
    requires |reflector| == 26
    requires forall i :: 0 <= i < 26 ==> 0 <= Index(reflector[i]) < 26 && reflector[Index(reflector[i])] == Letter(i)
    ensures Reciprocal(Assemble(confs, reflector, plugs).value)
  {
    var m := Assemble(confs, reflector, plugs).value;
    forall i | 0 <= i < |confs|
      ensures Bijective(m.rotors[i].connections)
    {
      WiringInverse(confs[i].configuration, confs[i].ringSetting);
    }
    WiringInverse(reflector, 0);
    SelfInverseWiring(reflector);
  }

  /** A wiring string that is its own inverse gives equal tables at ring setting 0. */
  lemma SelfInverseWiring(conf: string)
    requires |conf| == 26
    requires forall i :: 0 <= i < 26 ==> 0 <= Index(conf[i]) < 26 && conf[Index(conf[i])] == Letter(i)
    requires ConvertWiring(conf, 0).Ok?
    ensures ConvertWiring(conf, 0).value.forward == ConvertWiring(conf, 0).value.backward
  {
    var w := ConvertWiring(conf, 0).value;
    WiringAccepted(conf, 0);
    assert conf[..26] == conf;
    forall p | 0 <= p < 26
      ensures w.forward[p] == w.backward[p]
    {
      var j := Index(conf[p]);
      assert conf[j] == Letter(p);
      assert w.forward[p] == j;
      assert conf[..26][j] == Letter(p);
      assert IndexOf(conf, Letter(p), 26) == j;
    }
  }

  /** The rotor loops of Encode: forwards over the rotors in order, back in reverse. */
  method ThroughRotors(m: MachineModel, x: int) returns (out: int)
    requires WellFormed(m) && 0 <= x < 26
    ensures out == Reflected(m, x)
  {
    out := x;
    for k := 0 to |m.rotors|
      invariant 0 <= out < 26
      invariant out == Forward(m.rotors[..k], x)
    {
      assert m.rotors[..k + 1][..k] == m.rotors[..k];
      out := Rotors.Traverse(m.rotors[k], out, true);
    }
    assert m.rotors[..|m.rotors|] == m.rotors;
    out := Rotors.Traverse(m.reflector, out, true);
    ghost var reflected := out;
    var i := |m.rotors| - 1;
    while i >= 0
      invariant -1 <= i < |m.rotors|
      invariant 0 <= out < 26
      invariant Backward(m.rotors[..i + 1], out) == Backward(m.rotors, reflected)
      decreases i
    {
      assert m.rotors[..i + 1][..i] == m.rotors[..i];
      out := Rotors.Traverse(m.rotors[i], out, false);
      i := i - 1;
    }
  }

  // ---------------------------------------------------------------------
  // The machine object
  // ---------------------------------------------------------------------

  /** Enigma: the source's object; its rotor objects change position as keys are pressed. */
  class Enigma {
    const plugs: Plugboards.Plugboard
    const rotors: seq<Rotor>
    const rotorCount: int
    const reflector: Rotor

    /** Distinct rotor objects, the reflector not among them, and every part valid. */
    ghost predicate Valid()
      reads this, rotors, reflector
    {
      && |rotors| >= MinRotors
      && rotorCount == |rotors| - 1
      && (forall i, j :: 0 <= i < j < |rotors| ==> rotors[i] != rotors[j])
      && reflector !in rotors
      && (forall i :: 0 <= i < |rotors| ==> rotors[i].Valid())
      && reflector.Valid()
      && Plugboards.Matching(plugs.connections)
    }

    /** The machine's state as a value. */
    function Model(): (m: MachineModel)
      reads this, rotors, reflector
      ensures |m.rotors| == |rotors|
      ensures forall i :: 0 <= i < |rotors| ==> m.rotors[i] == rotors[i].Model()
    {
      MachineModel(plugs, seq(|rotors|, i reads rotors requires 0 <= i < |rotors| => rotors[i].Model()), reflector.Model())
    }

    constructor (plugs: Plugboards.Plugboard, rotors: seq<Rotor>, rotorCount: int, reflector: Rotor)
      ensures this.plugs == plugs && this.rotors == rotors
      ensures this.rotorCount == rotorCount && this.reflector == reflector
    {
      this.plugs := plugs;
      this.rotors := rotors;
      this.rotorCount := rotorCount;
      this.reflector := reflector;
    }

    lemma ValidModel()
      requires Valid()
      ensures WellFormed(Model())
    {
    }

    /** Cycle: advances rotors 0..2 by the stepping rule. */
    method Cycle()
      requires Valid()
      modifies rotors[0], rotors[1], rotors[2]
      ensures Valid()
      ensures Model() == Stepped(old(Model()))
    {
      ValidModel();
      var cycle1, cycle2 := false, false;
      if IsNotchEngaged(rotors[0].Model()) {
        cycle1 := true;
      }
      if IsNotchEngaged(rotors[1].Model()) {
        cycle1 := true;
        cycle2 := true;
      }
      rotors[0].Cycle();
      if cycle1 {
        rotors[1].Cycle();
      }
      if cycle2 {
        rotors[2].Cycle();
      }
      assert Model().rotors == Stepped(old(Model())).rotors;
    }

    /** Encode: one key press. */
    method Encode(r: char) returns (e: char)
      requires Valid() && IsAllowedCharacter(r)
      modifies rotors[0], rotors[1], rotors[2]
      ensures Valid()
      ensures Model() == Stepped(old(Model()))
      ensures e == KeyPress(old(Model()), r)
    {
      var input := Index(r);
      var out := Plugboards.Traverse(plugs, input);
      Cycle();
      ValidModel();
      out := ThroughRotors(Model(), out);
      e := Letter(Plugboards.Traverse(plugs, out));
    }

    /**
     * EncodeString: enciphers letter by letter; at the first non-letter it
     * returns the ciphertext so far together with that character as the error.
     */
    method EncodeString(s: string) returns (cipher: string, err: Option<char>)
      requires Valid()
      modifies rotors[0], rotors[1], rotors[2]
      ensures Valid()
      ensures Encoding(cipher, Model()) == EncodeMessage(old(Model()), s)
      ensures err.None? <==> AllAllowed(s)
      ensures err.Some? ==> LetterPrefix(s) < |s| && err.value == s[LetterPrefix(s)]
    {
      ValidModel();
      ghost var start := Model();
      ghost var current := start;
      cipher := [];
      var i := 0;
      while i < |s| && IsAllowedCharacter(s[i])
        invariant Valid() && current == Model()
        invariant i <= LetterPrefix(s)
        invariant Typed(start, s, i) == Encoding(cipher, current)
        decreases |s| - i
      {
        var e := Encode(s[i]);
        current := Stepped(current);
        cipher := cipher + [e];
        i := i + 1;
      }
      if i < |s| {
        PrefixEndsAt(s, i);
        err := Some(s[i]);
      } else {
        PrefixWhole(s);
        err := None;
      }
    }
  }

  /** Within the letter prefix, a non-letter is where the prefix ends. */
  lemma PrefixEndsAt(s: string, i: nat)
    requires i <= LetterPrefix(s) && i < |s| && !IsAllowedCharacter(s[i])
    ensures LetterPrefix(s) == i && !AllAllowed(s)
  {
  }

  /** A message that is all letter prefix is all letters. */
  lemma PrefixWhole(s: string)
    requires LetterPrefix(s) == |s|
    ensures AllAllowed(s)
  {
  }

  /** The rotor loop of NewEnigma: each configuration built in turn, stopping at the first failure. */
  method NewRotors(confs: seq<RotorConfiguration>) returns (r: Result<seq<Rotor>, nat>)
    requires RingSettingsInRange(confs)
    ensures r.Err? ==> BuildRotors(confs) == Err(r.error)
    ensures r.Ok? ==>
      && BuildRotors(confs).Ok? && |r.value| == |confs|
      && (forall i :: 0 <= i < |confs| ==> fresh(r.value[i]) && r.value[i].Valid())
      && (forall i :: 0 <= i < |confs| ==> Ok(r.value[i].Model()) == RotorOf(confs[i]))
      && (forall i, j :: 0 <= i < j < |confs| ==> r.value[i] != r.value[j])
  {
    var rotors: seq<Rotor> := [];
    for k := 0 to |confs|
      invariant |rotors| == k
      invariant forall i :: 0 <= i < k ==> fresh(rotors[i]) && rotors[i].Valid()
      invariant forall i :: 0 <= i < k ==> Ok(rotors[i].Model()) == RotorOf(confs[i])
      invariant forall i, j :: 0 <= i < j < k ==> rotors[i] != rotors[j]
    {
      var rot := NewRotor(confs[k]);
      if rot.Err? {
        BuildRotorsFails(confs, k);
        return Err(k);
      }
      rotors := rotors + [rot.value];
    }
    return Ok(rotors);
  }

  /** BuildRotors reports the first configuration that fails. */
  lemma {:induction false} BuildRotorsFails(confs: seq<RotorConfiguration>, k: nat)
    requires RingSettingsInRange(confs) && k < |confs| && RotorOf(confs[k]).Err?
    requires forall i :: 0 <= i < k ==> RotorOf(confs[i]).Ok?
    ensures BuildRotors(confs) == Err(k)
    decreases |confs|
  {
    var prefix := confs[..|confs| - 1];
    if k < |prefix| {
      assert prefix[k] == confs[k];
      assert forall i :: 0 <= i < k ==> prefix[i] == confs[i];
      BuildRotorsFails(prefix, k);
    } else {
      assert forall i :: 0 <= i < |prefix| ==> prefix[i] == confs[i];
      assert BuildRotors(prefix).Ok?;
    }
  }

  /** NewEnigma: plugboard, reflector, rotor count, then the rotors in order. */
  method NewEnigma(rotorConfs: seq<RotorConfiguration>, reflector: string, plugs: seq<seq<int>>)
    returns (r: Result<Enigma, MachineError>)
    requires RingSettingsInRange(rotorConfs)
    ensures r.Err? ==> Assemble(rotorConfs, reflector, plugs) == Err(r.error)
    ensures r.Ok? ==>
      && fresh(r.value) && fresh(r.value.reflector)
      && (forall i :: 0 <= i < |r.value.rotors| ==> fresh(r.value.rotors[i]))
      && r.value.Valid()
      && Assemble(rotorConfs, reflector, plugs) == Ok(r.value.Model())
  {
    var p := Plugboards.NewPlugboard(plugs);
    if p.Err? {
      return Err(PlugboardFailed(p.error));
    }
    var ref := NewRotor(ReflectorConfiguration(reflector));
    if ref.Err? {
      return Err(ReflectorFailed(ref.error));
    }
    var rotorCount := |rotorConfs|;
    if rotorCount < MinRotors {
      return Err(InsufficientRotors(rotorCount));
    }
    var rotors := NewRotors(rotorConfs);
    if rotors.Err? {
      return Err(RotorFailed(rotorConfs[rotors.error].name, rotorConfs[rotors.error].configuration));
    }
    var e := new Enigma(p.value, rotors.value, rotorCount - 1, ref.value);
    Plugboards.PlugboardShape(plugs);
    ghost var m := e.Model();
    BuiltRotors(rotorConfs, m.rotors);
    AssembleOk(rotorConfs, reflector, plugs, m);
    return Ok(e);
  }

  /** Rotor models that match their configurations one by one are what BuildRotors builds. */
  lemma BuiltRotors(confs: seq<RotorConfiguration>, models: seq<RotorModel>)
    requires RingSettingsInRange(confs) && |models| == |confs|
    requires forall i :: 0 <= i < |confs| ==> Ok(models[i]) == RotorOf(confs[i])
    ensures BuildRotors(confs) == Ok(models)
  {
    var r := BuildRotors(confs);
    forall i | 0 <= i < |confs|
      ensures r.value[i] == models[i]
    {
      assert RotorOf(confs[i]) == Ok(r.value[i]);
    }
  }

  /** Assemble succeeds with the parts built one by one. */
  lemma AssembleOk(confs: seq<RotorConfiguration>, reflector: string, plugs: seq<seq<int>>, m: MachineModel)
    requires RingSettingsInRange(confs) && |confs| >= MinRotors
    requires Plugboards.BuildPlugboard(plugs) == Ok(m.plugs)
    requires RotorOf(ReflectorConfiguration(reflector)) == Ok(m.reflector)
    requires BuildRotors(confs) == Ok(m.rotors)
    ensures Assemble(confs, reflector, plugs) == Ok(m)
  {
  }
}
