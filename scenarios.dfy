/**
 * The machine's literal test runs (enigma/enigma_test.go) replayed on the
 * model. A test machine has no plugs, reflector B, rotor II in the middle and
 * rotor I on the left; only its first rotor (III, III with ring setting 1, or
 * VIII) and the start positions vary.
 *
 * Each run is given as the trace of rotor positions before each key press.
 * Generic lemmas show that one step of the model moves a test machine along
 * the trace (Next) and that its signal path is the table lookups written out
 * (Path); the runs themselves are then checked letter by letter.
 */
module Scenarios {
  import opened Results
  import opened Rotors
  import Plugboards
  import opened Machine
  import opened Components

  /** The positions of rotors 0, 1 and 2. */
  datatype Positions = Positions(p0: int, p1: int, p2: int)

  predicate InRange(p: Positions) {
    0 <= p.p0 < 26 && 0 <= p.p1 < 26 && 0 <= p.p2 < 26
  }

  /** What varies in the first rotor of a test machine: its tables and notches. */
  datatype FirstRotor = FirstRotor(wiring: Wiring, notches: set<int>)

  predicate FullFirst(f: FirstRotor) {
    Bijective(f.wiring) && forall n :: n in f.notches ==> 0 <= n < 26
  }

  const RotorIWiring := Wiring(RotorIForward, RotorIBackward)
  const RotorIIWiring := Wiring(RotorIIForward, RotorIIBackward)
  const ReflectorBWiring := Wiring(ReflectorBTable, ReflectorBTable)

  /** The tables of rotor III at ring setting 1 (enigma/rotor_test.go, "ring setting"). */
  const RotorIIIRing1Forward: seq<int> := [15, 2, 4, 6, 8, 10, 12, 3, 16, 18, 20, 24, 22, 0, 14, 25, 5, 9, 23, 7, 1, 11, 13, 21, 19, 17]
  const RotorIIIRing1Backward: seq<int> := [13, 20, 1, 7, 2, 16, 3, 19, 4, 17, 5, 21, 6, 22, 14, 0, 8, 25, 9, 24, 10, 23, 12, 18, 11, 15]

  /** The three first rotors the tests use. */
  const FirstIII := FirstRotor(Wiring(RotorIIIForward, RotorIIIBackward), {NotchIII})
  const FirstIIIRing1 := FirstRotor(Wiring(RotorIIIRing1Forward, RotorIIIRing1Backward), {NotchIII})
  const FirstVIII := FirstRotor(Wiring(RotorVIIIForward, RotorVIIIBackward), {NotchVIToVIIIA, NotchVIToVIIIB})

  /** A test machine in a given state. */
  function TestMachine(f: FirstRotor, p: Positions): MachineModel {
    MachineModel(
      Plugboards.Plugboard(map[]),
      [RotorModel(f.wiring, p.p0, f.notches),
       RotorModel(RotorIIWiring, p.p1, {NotchII}),
       RotorModel(RotorIWiring, p.p2, {NotchI})],
      RotorModel(ReflectorBWiring, 0, {}))
  }

  /** The rotor configurations a test passes to NewEnigma. */
  function TestConfigurations(first: RotorConfiguration, p1: int, p2: int): seq<RotorConfiguration> {
    [first,
     RotorConfiguration("II", RotorII, p1, 0, [NotchII]),
     RotorConfiguration("I", RotorI, p2, 0, [NotchI])]
  }

  // ---------------------------------------------------------------------
  // The test machine in general
  // ---------------------------------------------------------------------

  lemma CatalogueParts()
    ensures Bijective(RotorIIWiring) && Bijective(RotorIWiring) && SelfInverse(ReflectorBWiring)
  {
    RotorIIFull();
    RotorIFull();
    ReflectorBFull();
  }

  lemma RotorIIFull()
    ensures Bijective(RotorIIWiring)
  {
    RotorIIConverts();
    WiringInverse(RotorII, 0);
  }

  lemma RotorIFull()
    ensures Bijective(RotorIWiring)
  {
    RotorIConverts();
    WiringInverse(RotorI, 0);
  }

  lemma ReflectorBFull()
    ensures SelfInverse(ReflectorBWiring)
  {
    ReflectorBConverts();
    WiringInverse(ReflectorB, 0);
  }

  /** Three full rotors, a reflecting reflector and no plugs make a reciprocal machine. */
  lemma ThreeRotorMachine(rs: seq<RotorModel>, reflector: RotorModel)
    requires |rs| == 3 && forall i :: 0 <= i < 3 ==> ValidModel(rs[i]) && Bijective(rs[i].connections)
    requires ValidModel(reflector) && SelfInverse(reflector.connections)
    ensures Reciprocal(MachineModel(Plugboards.Plugboard(map[]), rs, reflector))
  {
    assert Plugboards.Matching(map[]);
  }

  lemma TestMachineWellFormed(f: FirstRotor, p: Positions)
    requires FullFirst(f) && InRange(p)
    ensures Reciprocal(TestMachine(f, p))
  {
    CatalogueParts();
    var m := TestMachine(f, p);
    assert ValidModel(m.rotors[0]) && ValidModel(m.rotors[1]) && ValidModel(m.rotors[2]);
    ThreeRotorMachine(m.rotors, m.reflector);
  }

  /** The stepping rule on the positions of a test machine. */
  function Next(f: FirstRotor, p: Positions): (q: Positions)
    requires InRange(p)
    ensures InRange(q)
  {
    Positions(
      (p.p0 + 1) % 26,
      if p.p0 in f.notches || p.p1 == NotchII then (p.p1 + 1) % 26 else p.p1,
      if p.p1 == NotchII then (p.p2 + 1) % 26 else p.p2)
  }

  /** Stepped on a machine with three rotors, written out rotor by rotor. */
  lemma SteppedThree(plugs: Plugboards.Plugboard, w0: Wiring, w1: Wiring, w2: Wiring,
                     n0: set<int>, n1: set<int>, n2: set<int>, reflector: RotorModel, p: Positions)
    ensures Stepped(MachineModel(plugs, [RotorModel(w0, p.p0, n0), RotorModel(w1, p.p1, n1), RotorModel(w2, p.p2, n2)], reflector))
         == MachineModel(plugs,
              [RotorModel(w0, (p.p0 + 1) % 26, n0),
               RotorModel(w1, if p.p0 in n0 || p.p1 in n1 then (p.p1 + 1) % 26 else p.p1, n1),
               RotorModel(w2, if p.p1 in n1 then (p.p2 + 1) % 26 else p.p2, n2)],
              reflector)
  {
    var rs := [RotorModel(w0, p.p0, n0), RotorModel(w1, p.p1, n1), RotorModel(w2, p.p2, n2)];
    var a := rs[0 := Cycled(rs[0])];
    var b := if p.p0 in n0 || p.p1 in n1 then a[1 := Cycled(a[1])] else a;
    var c := if p.p1 in n1 then b[2 := Cycled(b[2])] else b;
    assert Stepped(MachineModel(plugs, rs, reflector)).rotors == c;
  }

  lemma TestMachineStepped(f: FirstRotor, p: Positions)
    requires InRange(p)
    ensures Stepped(TestMachine(f, p)) == TestMachine(f, Next(f, p))
  {
    SteppedThree(Plugboards.Plugboard(map[]), f.wiring, RotorIIWiring, RotorIWiring, f.notches, {NotchII}, {NotchI},
                 RotorModel(ReflectorBWiring, 0, {}), p);
    assert p.p1 in {NotchII} <==> p.p1 == NotchII;
  }

  /** One lookup in a table at a rotor position. */
  function Lookup(t: seq<int>, pos: int, x: int): int
    requires |t| == 26 && 0 <= pos < 26 && 0 <= x < 26
  {
    (t[(x + pos) % 26] - pos) % 26
  }

  /** The signal path of a test machine, written out as seven table lookups. */
  function Path(f: FirstRotor, p: Positions, x: int): int
    requires |f.wiring.forward| == 26 && |f.wiring.backward| == 26 && InRange(p) && 0 <= x < 26
  {
    var a := Lookup(f.wiring.forward, p.p0, x);
    var b := Lookup(RotorIIForward, p.p1, a);
    var c := Lookup(RotorIForward, p.p2, b);
    var d := Lookup(ReflectorBTable, 0, c);
    var e := Lookup(RotorIBackward, p.p2, d);
    var g := Lookup(RotorIIBackward, p.p1, e);
    Lookup(f.wiring.backward, p.p0, g)
  }

  /** Three rotors forwards, unfolded. */
  lemma ThreeForward(r: seq<RotorModel>, x: int)
    requires |r| == 3 && AllValid(r) && 0 <= x < 26
    ensures Forward(r, x) == Rotors.Traverse(r[2], Rotors.Traverse(r[1], Rotors.Traverse(r[0], x, true), true), true)
  {
    var r2, r1 := r[..2], r[..1];
    assert r2[..1] == r1 && r1[..0] == [] && r2[1] == r[1] && r1[0] == r[0];
    assert Forward(r1, x) == Rotors.Traverse(r[0], x, true);
    assert Forward(r2, x) == Rotors.Traverse(r[1], Forward(r1, x), true);
  }

  /** Three rotors backwards, unfolded. */
  lemma ThreeBackward(r: seq<RotorModel>, x: int)
    requires |r| == 3 && AllValid(r) && 0 <= x < 26
    ensures Backward(r, x) == Rotors.Traverse(r[0], Rotors.Traverse(r[1], Rotors.Traverse(r[2], x, false), false), false)
  {
    var r2, r1 := r[..2], r[..1];
    assert r2[..1] == r1 && r1[..0] == [] && r2[1] == r[1] && r1[0] == r[0];
    var b2 := Rotors.Traverse(r[2], x, false);
    var b1 := Rotors.Traverse(r[1], b2, false);
    assert Backward(r, x) == Backward(r2, b2);
    assert Backward(r2, b2) == Backward(r1, b1);
    assert Backward(r1, b1) == Rotors.Traverse(r[0], b1, false);
  }

  /** A traversal through full tables is the lookup. */
  lemma TraverseLookup(m: RotorModel, x: int, forwards: bool)
    requires ValidModel(m) && Bijective(m.connections) && 0 <= x < 26
    ensures Rotors.Traverse(m, x, forwards)
         == Lookup(if forwards then m.connections.forward else m.connections.backward, m.position, x)
  {
  }

  lemma TestMachinePath(f: FirstRotor, p: Positions, x: int)
    requires FullFirst(f) && InRange(p) && 0 <= x < 26
    ensures WellFormed(TestMachine(f, p)) && SignalPath(TestMachine(f, p), x) == Path(f, p, x)
  {
    TestMachineWellFormed(f, p);
    var m := TestMachine(f, p);
    var r := m.rotors;
    ThreeForward(r, x);
    var a := Rotors.Traverse(r[0], x, true);
    var b := Rotors.Traverse(r[1], a, true);
    var c := Rotors.Traverse(r[2], b, true);
    var d := Rotors.Traverse(m.reflector, c, true);
    ThreeBackward(r, d);
    var e := Rotors.Traverse(r[2], d, false);
    var g := Rotors.Traverse(r[1], e, false);
    TraverseLookup(r[0], x, true);
    TraverseLookup(r[1], a, true);
    TraverseLookup(r[2], b, true);
    TraverseLookup(m.reflector, c, true);
    TraverseLookup(r[2], d, false);
    TraverseLookup(r[1], e, false);
    TraverseLookup(r[0], g, false);
  }

  // ---------------------------------------------------------------------
  // Replaying a run
  // ---------------------------------------------------------------------

  /**
   * One key press of a run: the rotors step from `before` to `after` and key
   * c lights lamp e.
   */
  predicate Press(f: FirstRotor, before: Positions, c: char, after: Positions, e: char)
    requires |f.wiring.forward| == 26 && |f.wiring.backward| == 26
  {
    && InRange(before)
    && IsAllowedCharacter(c)
    && after == Next(f, before)
    && e == Letter(Path(f, after, Index(c)))
  }

  /** The positions before each of n presses and after the last, each one step after the one before. */
  predicate Trace(f: FirstRotor, states: seq<Positions>, n: nat) {
    && |states| == n + 1
    && forall k :: 0 <= k < n ==> InRange(states[k]) && states[k + 1] == Next(f, states[k])
  }

  /** A whole run: message s, the positions before each press and after the last, and the lamps. */
  predicate Replays(f: FirstRotor, states: seq<Positions>, s: string, out: string)
    requires |f.wiring.forward| == 26 && |f.wiring.backward| == 26
  {
    && |states| == |s| + 1
    && |out| == |s|
    && forall k :: 0 <= k < |s| ==> Press(f, states[k], s[k], states[k + 1], out[k])
  }

  /** A press of known positions and letters, read off the run at index k. */
  lemma PressAt(f: FirstRotor, states: seq<Positions>, s: string, out: string, k: int,
                before: Positions, c: char, after: Positions, e: char)
    requires |f.wiring.forward| == 26 && |f.wiring.backward| == 26
    requires 0 <= k < |s| && k < |out| && k + 1 < |states|
    requires states[k] == before && s[k] == c && states[k + 1] == after && out[k] == e
    requires Press(f, before, c, after, e)
    ensures Press(f, states[k], s[k], states[k + 1], out[k])
  {
  }

  /** Two runs, the second starting where the first ends, make one run. */
  lemma ReplaysAppend(f: FirstRotor, st1: seq<Positions>, s1: string, o1: string,
                      st2: seq<Positions>, s2: string, o2: string)
    requires |f.wiring.forward| == 26 && |f.wiring.backward| == 26
    requires Replays(f, st1, s1, o1) && Replays(f, st2, s2, o2) && st1[|s1|] == st2[0]
    ensures Replays(f, st1 + st2[1..], s1 + s2, o1 + o2)
  {
    var st := st1 + st2[1..];
    forall k | 0 <= k < |s1| + |s2|
      ensures Press(f, st[k], (s1 + s2)[k], st[k + 1], (o1 + o2)[k])
    {
      if k < |s1| {
        assert Press(f, st1[k], s1[k], st1[k + 1], o1[k]);
      } else {
        var j := k - |s1|;
        assert st[k] == st2[j] && st[k + 1] == st2[j + 1];
        assert Press(f, st2[j], s2[j], st2[j + 1], o2[j]);
      }
    }
  }

  lemma ReplayTrace(f: FirstRotor, states: seq<Positions>, s: string, out: string)
    requires |f.wiring.forward| == 26 && |f.wiring.backward| == 26
    requires Replays(f, states, s, out)
    ensures Trace(f, states, |s|)
  {
    forall k | 0 <= k < |s|
      ensures InRange(states[k]) && states[k + 1] == Next(f, states[k])
    {
      assert Press(f, states[k], s[k], states[k + 1], out[k]);
    }
  }

  /** The rotors pass through the states of a run. */
  lemma {:induction false} ReplaySteps(f: FirstRotor, states: seq<Positions>, n: nat, k: nat)
    requires Trace(f, states, n) && k <= n && InRange(states[0])
    ensures InRange(states[k]) && Steps(TestMachine(f, states[0]), k) == TestMachine(f, states[k])
  {
    if k > 0 {
      ReplaySteps(f, states, n, k - 1);
      TestMachineStepped(f, states[k - 1]);
    }
  }

  /** A run that checks out is what EncodeString returns. */
  lemma ReplayIsEncoding(f: FirstRotor, states: seq<Positions>, s: string, out: string)
    requires FullFirst(f) && Replays(f, states, s, out) && InRange(states[0])
    ensures WellFormed(TestMachine(f, states[0])) && EncodeMessage(TestMachine(f, states[0]), s).cipher == out
  {
    TestMachineWellFormed(f, states[0]);
    ReplayTrace(f, states, s, out);
    var m := TestMachine(f, states[0]);
    assert AllAllowed(s) by {
      forall k | 0 <= k < |s|
        ensures IsAllowedCharacter(s[k])
      {
        assert Press(f, states[k], s[k], states[k + 1], out[k]);
      }
    }
    EncodeMessageLength(m, s);
    var cipher := EncodeMessage(m, s).cipher;
    forall k | 0 <= k < |s|
      ensures cipher[k] == out[k]
    {
      assert Press(f, states[k], s[k], states[k + 1], out[k]);
      EncodeMessageLetter(m, s, k);
      ReplaySteps(f, states, |s|, k);
      TestMachineWellFormed(f, states[k]);
      TestMachineStepped(f, states[k]);
      TestMachinePath(f, states[k + 1], Index(s[k]));
    }
  }

  // ---------------------------------------------------------------------
  // Building the test machines with NewEnigma
  // ---------------------------------------------------------------------

  lemma NoPlugs()
    ensures Plugboards.BuildPlugboard([]) == Ok(Plugboards.Plugboard(map[]))
  {
  }

  /** The notch set of a rotor built from a list of notches. */
  lemma NotchSet(notches: seq<int>, s: set<int>)
    requires |notches| <= 2
    requires forall n :: n in s <==> n in notches
    ensures |notches| == 0 ==> s == {}
    ensures |notches| == 1 ==> s == {notches[0]}
    ensures |notches| == 2 ==> s == {notches[0], notches[1]}
  {
    if |notches| == 0 {
      assert forall n :: n !in s;
    } else if |notches| == 1 {
      assert forall n :: n in s <==> n == notches[0];
    } else {
      assert forall n :: n in s <==> n == notches[0] || n == notches[1];
    }
  }

  lemma RotorIIBuilt(p1: int)
    requires 0 <= p1 < 26
    ensures RotorOf(RotorConfiguration("II", RotorII, p1, 0, [NotchII])) == Ok(RotorModel(RotorIIWiring, p1, {NotchII}))
  {
    RotorIIConverts();
    var r := RotorOf(RotorConfiguration("II", RotorII, p1, 0, [NotchII]));
    NotchSet([NotchII], r.value.notches);
  }

  lemma RotorIBuilt(p2: int)
    requires 0 <= p2 < 26
    ensures RotorOf(RotorConfiguration("I", RotorI, p2, 0, [NotchI])) == Ok(RotorModel(RotorIWiring, p2, {NotchI}))
  {
    RotorIConverts();
    var r := RotorOf(RotorConfiguration("I", RotorI, p2, 0, [NotchI]));
    NotchSet([NotchI], r.value.notches);
  }

  lemma ReflectorBBuilt()
    ensures RotorOf(ReflectorConfiguration(ReflectorB)) == Ok(RotorModel(ReflectorBWiring, 0, {}))
  {
    ReflectorBConverts();
    var r := RotorOf(ReflectorConfiguration(ReflectorB));
    NotchSet([], r.value.notches);
  }

  /** NewEnigma with three rotors and no plugs builds the parts newRotor builds. */
  lemma AssembledThree(c0: RotorConfiguration, c1: RotorConfiguration, c2: RotorConfiguration,
                       r0: RotorModel, r1: RotorModel, r2: RotorModel, reflector: string, rf: RotorModel)
    requires 0 <= c0.ringSetting < 26 && 0 <= c1.ringSetting < 26 && 0 <= c2.ringSetting < 26
    requires RotorOf(c0) == Ok(r0) && RotorOf(c1) == Ok(r1) && RotorOf(c2) == Ok(r2)
    requires RotorOf(ReflectorConfiguration(reflector)) == Ok(rf)
    ensures Assemble([c0, c1, c2], reflector, []) == Ok(MachineModel(Plugboards.Plugboard(map[]), [r0, r1, r2], rf))
  {
    NoPlugs();
    BuiltRotors([c0, c1, c2], [r0, r1, r2]);
    AssembleOk([c0, c1, c2], reflector, [], MachineModel(Plugboards.Plugboard(map[]), [r0, r1, r2], rf));
  }

  /** NewEnigma builds a test machine from a first rotor that newRotor accepts. */
  lemma AssembledTestMachine(first: RotorConfiguration, f: FirstRotor, p: Positions)
    requires InRange(p) && 0 <= first.ringSetting < 26
    requires RotorOf(first) == Ok(RotorModel(f.wiring, p.p0, f.notches))
    ensures Assemble(TestConfigurations(first, p.p1, p.p2), ReflectorB, []) == Ok(TestMachine(f, p))
  {
    RotorIIBuilt(p.p1);
    RotorIBuilt(p.p2);
    ReflectorBBuilt();
    AssembledThree(first, RotorConfiguration("II", RotorII, p.p1, 0, [NotchII]),
                   RotorConfiguration("I", RotorI, p.p2, 0, [NotchI]),
                   RotorModel(f.wiring, p.p0, f.notches), RotorModel(RotorIIWiring, p.p1, {NotchII}),
                   RotorModel(RotorIWiring, p.p2, {NotchI}), ReflectorB, RotorModel(ReflectorBWiring, 0, {}));
  }

  lemma FirstIIIBuilt(p0: int)
    requires 0 <= p0 < 26
    ensures RotorOf(RotorConfiguration("III", RotorIII, p0, 0, [NotchIII]))
         == Ok(RotorModel(FirstIII.wiring, p0, FirstIII.notches))
    ensures FullFirst(FirstIII)
  {
    RotorIIIConverts();
    WiringInverse(RotorIII, 0);
    var r := RotorOf(RotorConfiguration("III", RotorIII, p0, 0, [NotchIII]));
    NotchSet([NotchIII], r.value.notches);
  }

  /** Ring setting 1 moves every slot and every value of rotor III's tables on by one. */
  lemma RotorIIIRing1ShiftedLow()
    ensures forall i :: 0 <= i < 13 ==> RotorIIIRing1Forward[(i + 1) % 26] == (RotorIIIForward[i] + 1) % 26
  {
  }

  lemma RotorIIIRing1ShiftedHigh()
    ensures forall i :: 13 <= i < 26 ==> RotorIIIRing1Forward[(i + 1) % 26] == (RotorIIIForward[i] + 1) % 26
  {
  }

  lemma RotorIIIRing1BackShiftedLow()
    ensures forall i :: 0 <= i < 13 ==> RotorIIIRing1Backward[(RotorIIIForward[i] + 1) % 26] == (i + 1) % 26
  {
  }

  lemma RotorIIIRing1BackShiftedHigh()
    ensures forall i :: 13 <= i < 26 ==> RotorIIIRing1Backward[(RotorIIIForward[i] + 1) % 26] == (i + 1) % 26
  {
  }

  /** Rotor III at ring setting 1 gives the tables of the ring-setting test. */
  lemma RotorIIIRing1Converts()
    ensures ConvertWiring(RotorIII, 1) == Ok(Wiring(RotorIIIRing1Forward, RotorIIIRing1Backward))
  {
    RotorIIITables();
    RotorIIIRing1ShiftedLow();
    RotorIIIRing1ShiftedHigh();
    RotorIIIRing1BackShiftedLow();
    RotorIIIRing1BackShiftedHigh();
    assert Tabulates(RotorIII, 1, RotorIIIRing1Forward, RotorIIIRing1Backward) by {
      forall i | 0 <= i < 26
        ensures && IsAllowedCharacter(RotorIII[i])
                && RotorIIIRing1Forward[AddMod(i, 1)] == AddMod(Index(RotorIII[i]), 1)
                && RotorIIIRing1Backward[AddMod(Index(RotorIII[i]), 1)] == AddMod(i, 1)
      {
        assert RotorIIIForward[AddMod(i, 0)] == AddMod(Index(RotorIII[i]), 0);
      }
    }
    WiringFromTables(RotorIII, 1, RotorIIIRing1Forward, RotorIIIRing1Backward);
  }

  lemma FirstIIIRing1Built(p0: int)
    requires 0 <= p0 < 26
    ensures RotorOf(RotorConfiguration("III", RotorIII, p0, 1, [NotchIII]))
         == Ok(RotorModel(FirstIIIRing1.wiring, p0, FirstIIIRing1.notches))
    ensures FullFirst(FirstIIIRing1)
  {
    RotorIIIRing1Converts();
    WiringInverse(RotorIII, 1);
    var r := RotorOf(RotorConfiguration("III", RotorIII, p0, 1, [NotchIII]));
    NotchSet([NotchIII], r.value.notches);
  }

  lemma FirstVIIIBuilt(p0: int)
    requires 0 <= p0 < 26
    ensures RotorOf(RotorConfiguration("VIII", RotorVIII, p0, 0, [NotchVIToVIIIA, NotchVIToVIIIB]))
         == Ok(RotorModel(FirstVIII.wiring, p0, FirstVIII.notches))
    ensures FullFirst(FirstVIII)
  {
    RotorVIIIConverts();
    WiringInverse(RotorVIII, 0);
    var r := RotorOf(RotorConfiguration("VIII", RotorVIII, p0, 0, [NotchVIToVIIIA, NotchVIToVIIIB]));
    NotchSet([NotchVIToVIIIA, NotchVIToVIIIB], r.value.notches);
  }

  // ---------------------------------------------------------------------
  // The literal runs, one key press at a time
  // ---------------------------------------------------------------------

  lemma TableLengths()
    ensures |RotorIIIForward| == 26 && |RotorIIIBackward| == 26 && |RotorIIIRing1Forward| == 26 && |RotorIIIRing1Backward| == 26
    ensures |RotorVIIIForward| == 26 && |RotorVIIIBackward| == 26 && |RotorIIForward| == 26 && |RotorIIBackward| == 26
    ensures |RotorIForward| == 26 && |RotorIBackward| == 26 && |ReflectorBTable| == 26
  {
  }

  /** The thirty-letter run from rotors III, II, I at AAA, in six parts of five presses: rotor II steps once, at the 22nd press. */
  const SteppedInput1 := "AAAAA"
  const SteppedOutput1 := "BDZGO"
  const SteppedStates1: seq<Positions> :=
    [Positions(0, 0, 0), Positions(1, 0, 0), Positions(2, 0, 0), Positions(3, 0, 0), Positions(4, 0, 0), Positions(5, 0, 0)]
  const SteppedInput2 := "AAAAA"
  const SteppedOutput2 := "WCXLT"
  const SteppedStates2: seq<Positions> :=
    [Positions(5, 0, 0), Positions(6, 0, 0), Positions(7, 0, 0), Positions(8, 0, 0), Positions(9, 0, 0), Positions(10, 0, 0)]
  const SteppedInput3 := "AAAAA"
  const SteppedOutput3 := "KSBTM"
  const SteppedStates3: seq<Positions> :=
    [Positions(10, 0, 0), Positions(11, 0, 0), Positions(12, 0, 0), Positions(13, 0, 0), Positions(14, 0, 0), Positions(15, 0, 0)]
  const SteppedInput4 := "AAAAA"
  const SteppedOutput4 := "CDLPB"
  const SteppedStates4: seq<Positions> :=
    [Positions(15, 0, 0), Positions(16, 0, 0), Positions(17, 0, 0), Positions(18, 0, 0), Positions(19, 0, 0), Positions(20, 0, 0)]
  const SteppedInput5 := "AAAAA"
  const SteppedOutput5 := "MUQOF"
  const SteppedStates5: seq<Positions> :=
    [Positions(20, 0, 0), Positions(21, 0, 0), Positions(22, 1, 0), Positions(23, 1, 0), Positions(24, 1, 0), Positions(25, 1, 0)]
  const SteppedInput6 := "AAAAA"
  const SteppedOutput6 := "XYHCX"
  const SteppedStates6: seq<Positions> :=
    [Positions(25, 1, 0), Positions(0, 1, 0), Positions(1, 1, 0), Positions(2, 1, 0), Positions(3, 1, 0), Positions(4, 1, 0)]
  const SteppedInput := SteppedInput1 + SteppedInput2 + SteppedInput3 + SteppedInput4 + SteppedInput5 + SteppedInput6
  const SteppedOutput := SteppedOutput1 + SteppedOutput2 + SteppedOutput3 + SteppedOutput4 + SteppedOutput5 + SteppedOutput6
  const SteppedStates := SteppedStates1 + SteppedStates2[1..] + SteppedStates3[1..] + SteppedStates4[1..] + SteppedStates5[1..] + SteppedStates6[1..]

  lemma SteppedKey00()
    ensures Press(FirstIII, Positions(0, 0, 0), 'A', Positions(1, 0, 0), 'B')
  {
    TableLengths();
    assert Lookup(RotorIIIForward, 1, 0) == 2;
    assert Lookup(RotorIIForward, 0, 2) == 3;
    assert Lookup(RotorIForward, 0, 3) == 5;
    assert Lookup(ReflectorBTable, 0, 5) == 18;
    assert Lookup(RotorIBackward, 0, 18) == 18;
    assert Lookup(RotorIIBackward, 0, 18) == 4;
    assert Lookup(RotorIIIBackward, 1, 4) == 1;
  }

  lemma SteppedKey01()
    ensures Press(FirstIII, Positions(1, 0, 0), 'A', Positions(2, 0, 0), 'D')
  {
    TableLengths();
    assert Lookup(RotorIIIForward, 2, 0) == 3;
    assert Lookup(RotorIIForward, 0, 3) == 10;
    assert Lookup(RotorIForward, 0, 10) == 13;
    assert Lookup(ReflectorBTable, 0, 13) == 10;
    assert Lookup(RotorIBackward, 0, 10) == 1;
    assert Lookup(RotorIIBackward, 0, 1) == 9;
    assert Lookup(RotorIIIBackward, 2, 9) == 3;
  }

  lemma SteppedKey02()
    ensures Press(FirstIII, Positions(2, 0, 0), 'A', Positions(3, 0, 0), 'Z')
  {
    TableLengths();
    assert Lookup(RotorIIIForward, 3, 0) == 4;
    assert Lookup(RotorIIForward, 0, 4) == 18;
    assert Lookup(RotorIForward, 0, 18) == 18;
    assert Lookup(ReflectorBTable, 0, 18) == 5;
    assert Lookup(RotorIBackward, 0, 5) == 3;
    assert Lookup(RotorIIBackward, 0, 3) == 2;
    assert Lookup(RotorIIIBackward, 3, 2) == 25;
  }

  lemma SteppedKey03()
    ensures Press(FirstIII, Positions(3, 0, 0), 'A', Positions(4, 0, 0), 'G')
  {
    TableLengths();
    assert Lookup(RotorIIIForward, 4, 0) == 5;
    assert Lookup(RotorIIForward, 0, 5) == 8;
    assert Lookup(RotorIForward, 0, 8) == 21;
    assert Lookup(ReflectorBTable, 0, 21) == 22;
    assert Lookup(RotorIBackward, 0, 22) == 13;
    assert Lookup(RotorIIBackward, 0, 13) == 19;
    assert Lookup(RotorIIIBackward, 4, 19) == 6;
  }

  lemma SteppedKey04()
    ensures Press(FirstIII, Positions(4, 0, 0), 'A', Positions(5, 0, 0), 'O')
  {
    TableLengths();
    assert Lookup(RotorIIIForward, 5, 0) == 6;
    assert Lookup(RotorIIForward, 0, 6) == 17;
    assert Lookup(RotorIForward, 0, 17) == 20;
    assert Lookup(ReflectorBTable, 0, 20) == 2;
    assert Lookup(RotorIBackward, 0, 2) == 24;
    assert Lookup(RotorIIBackward, 0, 24) == 21;
    assert Lookup(RotorIIIBackward, 5, 21) == 14;
  }

  lemma SteppedKey05()
    ensures Press(FirstIII, Positions(5, 0, 0), 'A', Positions(6, 0, 0), 'W')
  {
    TableLengths();
    assert Lookup(RotorIIIForward, 6, 0) == 22;
    assert Lookup(RotorIIForward, 0, 22) == 5;
    assert Lookup(RotorIForward, 0, 5) == 6;
    assert Lookup(ReflectorBTable, 0, 6) == 11;
    assert Lookup(RotorIBackward, 0, 11) == 4;
    assert Lookup(RotorIIBackward, 0, 4) == 25;
    assert Lookup(RotorIIIBackward, 6, 25) == 22;
  }

  lemma SteppedKey06()
    ensures Press(FirstIII, Positions(6, 0, 0), 'A', Positions(7, 0, 0), 'C')
  {
    TableLengths();
    assert Lookup(RotorIIIForward, 7, 0) == 8;
    assert Lookup(RotorIIForward, 0, 8) == 23;
    assert Lookup(RotorIForward, 0, 23) == 17;
    assert Lookup(ReflectorBTable, 0, 17) == 1;
    assert Lookup(RotorIBackward, 0, 1) == 22;
    assert Lookup(RotorIIBackward, 0, 22) == 12;
    assert Lookup(RotorIIIBackward, 7, 12) == 2;
  }

  lemma SteppedKey07()
    ensures Press(FirstIII, Positions(7, 0, 0), 'A', Positions(8, 0, 0), 'X')
  {
    TableLengths();
    assert Lookup(RotorIIIForward, 8, 0) == 9;
    assert Lookup(RotorIIForward, 0, 9) == 1;
    assert Lookup(RotorIForward, 0, 1) == 10;
    assert Lookup(ReflectorBTable, 0, 10) == 13;
    assert Lookup(RotorIBackward, 0, 13) == 10;
    assert Lookup(RotorIIBackward, 0, 10) == 3;
    assert Lookup(RotorIIIBackward, 8, 3) == 23;
  }

  lemma SteppedKey08()
    ensures Press(FirstIII, Positions(8, 0, 0), 'A', Positions(9, 0, 0), 'L')
  {
    TableLengths();
    assert Lookup(RotorIIIForward, 9, 0) == 10;
    assert Lookup(RotorIIForward, 0, 10) == 11;
    assert Lookup(RotorIForward, 0, 11) == 19;
    assert Lookup(ReflectorBTable, 0, 19) == 25;
    assert Lookup(RotorIBackward, 0, 25) == 9;
    assert Lookup(RotorIIBackward, 0, 9) == 1;
    assert Lookup(RotorIIIBackward, 9, 1) == 11;
  }

  lemma SteppedKey09()
    ensures Press(FirstIII, Positions(9, 0, 0), 'A', Positions(10, 0, 0), 'T')
  {
    TableLengths();
    assert Lookup(RotorIIIForward, 10, 0) == 13;
    assert Lookup(RotorIIForward, 0, 13) == 19;
    assert Lookup(RotorIForward, 0, 19) == 15;
    assert Lookup(ReflectorBTable, 0, 15) == 8;
    assert Lookup(RotorIBackward, 0, 8) == 21;
    assert Lookup(RotorIIBackward, 0, 21) == 23;
    assert Lookup(RotorIIIBackward, 10, 23) == 19;
  }

  lemma SteppedKey10()
    ensures Press(FirstIII, Positions(10, 0, 0), 'A', Positions(11, 0, 0), 'K')
  {
    TableLengths();
    assert Lookup(RotorIIIForward, 11, 0) == 10;
    assert Lookup(RotorIIForward, 0, 10) == 11;
    assert Lookup(RotorIForward, 0, 11) == 19;
    assert Lookup(ReflectorBTable, 0, 19) == 25;
    assert Lookup(RotorIBackward, 0, 25) == 9;
    assert Lookup(RotorIIBackward, 0, 9) == 1;
    assert Lookup(RotorIIIBackward, 11, 1) == 10;
  }

  lemma SteppedKey11()
    ensures Press(FirstIII, Positions(11, 0, 0), 'A', Positions(12, 0, 0), 'S')
  {
    TableLengths();
    assert Lookup(RotorIIIForward, 12, 0) == 13;
    assert Lookup(RotorIIForward, 0, 13) == 19;
    assert Lookup(RotorIForward, 0, 19) == 15;
    assert Lookup(ReflectorBTable, 0, 15) == 8;
    assert Lookup(RotorIBackward, 0, 8) == 21;
    assert Lookup(RotorIIBackward, 0, 21) == 23;
    assert Lookup(RotorIIIBackward, 12, 23) == 18;
  }

  lemma SteppedKey12()
    ensures Press(FirstIII, Positions(12, 0, 0), 'A', Positions(13, 0, 0), 'B')
  {
    TableLengths();
    assert Lookup(RotorIIIForward, 13, 0) == 0;
    assert Lookup(RotorIIForward, 0, 0) == 0;
    assert Lookup(RotorIForward, 0, 0) == 4;
    assert Lookup(ReflectorBTable, 0, 4) == 16;
    assert Lookup(RotorIBackward, 0, 16) == 7;
    assert Lookup(RotorIIBackward, 0, 7) == 11;
    assert Lookup(RotorIIIBackward, 13, 11) == 1;
  }

  lemma SteppedKey13()
    ensures Press(FirstIII, Positions(13, 0, 0), 'A', Positions(14, 0, 0), 'T')
  {
    TableLengths();
    assert Lookup(RotorIIIForward, 14, 0) == 10;
    assert Lookup(RotorIIForward, 0, 10) == 11;
    assert Lookup(RotorIForward, 0, 11) == 19;
    assert Lookup(ReflectorBTable, 0, 19) == 25;
    assert Lookup(RotorIBackward, 0, 25) == 9;
    assert Lookup(RotorIIBackward, 0, 9) == 1;
    assert Lookup(RotorIIIBackward, 14, 1) == 19;
  }

  lemma SteppedKey14()
    ensures Press(FirstIII, Positions(14, 0, 0), 'A', Positions(15, 0, 0), 'M')
  {
    TableLengths();
    assert Lookup(RotorIIIForward, 15, 0) == 15;
    assert Lookup(RotorIIForward, 0, 15) == 2;
    assert Lookup(RotorIForward, 0, 2) == 12;
    assert Lookup(ReflectorBTable, 0, 12) == 14;
    assert Lookup(RotorIBackward, 0, 14) == 12;
    assert Lookup(RotorIIBackward, 0, 12) == 14;
    assert Lookup(RotorIIIBackward, 15, 14) == 12;
  }

  lemma SteppedKey15()
    ensures Press(FirstIII, Positions(15, 0, 0), 'A', Positions(16, 0, 0), 'C')
  {
    TableLengths();
    assert Lookup(RotorIIIForward, 16, 0) == 18;
    assert Lookup(RotorIIForward, 0, 18) == 25;
    assert Lookup(RotorIForward, 0, 25) == 9;
    assert Lookup(ReflectorBTable, 0, 9) == 23;
    assert Lookup(RotorIBackward, 0, 23) == 16;
    assert Lookup(RotorIIBackward, 0, 16) == 16;
    assert Lookup(RotorIIIBackward, 16, 16) == 2;
  }

  lemma SteppedKey16()
    ensures Press(FirstIII, Positions(16, 0, 0), 'A', Positions(17, 0, 0), 'D')
  {
    TableLengths();
    assert Lookup(RotorIIIForward, 17, 0) == 5;
    assert Lookup(RotorIIForward, 0, 5) == 8;
    assert Lookup(RotorIForward, 0, 8) == 21;
    assert Lookup(ReflectorBTable, 0, 21) == 22;
    assert Lookup(RotorIBackward, 0, 22) == 13;
    assert Lookup(RotorIIBackward, 0, 13) == 19;
    assert Lookup(RotorIIIBackward, 17, 19) == 3;
  }

  lemma SteppedKey17()
    ensures Press(FirstIII, Positions(17, 0, 0), 'A', Positions(18, 0, 0), 'L')
  {
    TableLengths();
    assert Lookup(RotorIIIForward, 18, 0) == 14;
    assert Lookup(RotorIIForward, 0, 14) == 12;
    assert Lookup(RotorIForward, 0, 12) == 14;
    assert Lookup(ReflectorBTable, 0, 14) == 12;
    assert Lookup(RotorIBackward, 0, 12) == 2;
    assert Lookup(RotorIIBackward, 0, 2) == 15;
    assert Lookup(RotorIIIBackward, 18, 15) == 11;
  }

  lemma SteppedKey18()
    ensures Press(FirstIII, Positions(18, 0, 0), 'A', Positions(19, 0, 0), 'P')
  {
    TableLengths();
    assert Lookup(RotorIIIForward, 19, 0) == 7;
    assert Lookup(RotorIIForward, 0, 7) == 20;
    assert Lookup(RotorIForward, 0, 20) == 0;
    assert Lookup(ReflectorBTable, 0, 0) == 24;
    assert Lookup(RotorIBackward, 0, 24) == 14;
    assert Lookup(RotorIIBackward, 0, 14) == 24;
    assert Lookup(RotorIIIBackward, 19, 24) == 15;
  }

  lemma SteppedKey19()
    ensures Press(FirstIII, Positions(19, 0, 0), 'A', Positions(20, 0, 0), 'B')
  {
    TableLengths();
    assert Lookup(RotorIIIForward, 20, 0) == 16;
    assert Lookup(RotorIIForward, 0, 16) == 16;
    assert Lookup(RotorIForward, 0, 16) == 23;
    assert Lookup(ReflectorBTable, 0, 23) == 9;
    assert Lookup(RotorIBackward, 0, 9) == 25;
    assert Lookup(RotorIIBackward, 0, 25) == 18;
    assert Lookup(RotorIIIBackward, 20, 18) == 1;
  }

  lemma SteppedKey20()
    ensures Press(FirstIII, Positions(20, 0, 0), 'A', Positions(21, 0, 0), 'M')
  {
    TableLengths();
    assert Lookup(RotorIIIForward, 21, 0) == 17;
    assert Lookup(RotorIIForward, 0, 17) == 6;
    assert Lookup(RotorIForward, 0, 6) == 3;
    assert Lookup(ReflectorBTable, 0, 3) == 7;
    assert Lookup(RotorIBackward, 0, 7) == 15;
    assert Lookup(RotorIIBackward, 0, 15) == 20;
    assert Lookup(RotorIIIBackward, 21, 20) == 12;
  }

  lemma SteppedKey21()
    ensures Press(FirstIII, Positions(21, 0, 0), 'A', Positions(22, 1, 0), 'U')
  {
    TableLengths();
    assert Lookup(RotorIIIForward, 22, 0) == 24;
    assert Lookup(RotorIIForward, 1, 24) == 3;
    assert Lookup(RotorIForward, 0, 3) == 5;
    assert Lookup(ReflectorBTable, 0, 5) == 18;
    assert Lookup(RotorIBackward, 0, 18) == 18;
    assert Lookup(RotorIIBackward, 1, 18) == 12;
    assert Lookup(RotorIIIBackward, 22, 12) == 20;
  }

  lemma SteppedKey22()
    ensures Press(FirstIII, Positions(22, 1, 0), 'A', Positions(23, 1, 0), 'Q')
  {
    TableLengths();
    assert Lookup(RotorIIIForward, 23, 0) == 21;
    assert Lookup(RotorIIForward, 1, 21) == 4;
    assert Lookup(RotorIForward, 0, 4) == 11;
    assert Lookup(ReflectorBTable, 0, 11) == 6;
    assert Lookup(RotorIBackward, 0, 6) == 5;
    assert Lookup(RotorIIBackward, 1, 5) == 16;
    assert Lookup(RotorIIIBackward, 23, 16) == 16;
  }

  lemma SteppedKey23()
    ensures Press(FirstIII, Positions(23, 1, 0), 'A', Positions(24, 1, 0), 'O')
  {
    TableLengths();
    assert Lookup(RotorIIIForward, 24, 0) == 18;
    assert Lookup(RotorIIForward, 1, 18) == 12;
    assert Lookup(RotorIForward, 0, 12) == 14;
    assert Lookup(ReflectorBTable, 0, 14) == 12;
    assert Lookup(RotorIBackward, 0, 12) == 2;
    assert Lookup(RotorIIBackward, 1, 2) == 1;
    assert Lookup(RotorIIIBackward, 24, 1) == 14;
  }

  lemma SteppedKey24()
    ensures Press(FirstIII, Positions(24, 1, 0), 'A', Positions(25, 1, 0), 'F')
  {
    TableLengths();
    assert Lookup(RotorIIIForward, 25, 0) == 15;
    assert Lookup(RotorIIForward, 1, 15) == 15;
    assert Lookup(RotorIForward, 0, 15) == 7;
    assert Lookup(ReflectorBTable, 0, 7) == 3;
    assert Lookup(RotorIBackward, 0, 3) == 6;
    assert Lookup(RotorIIBackward, 1, 6) == 10;
    assert Lookup(RotorIIIBackward, 25, 10) == 5;
  }

  lemma SteppedKey25()
    ensures Press(FirstIII, Positions(25, 1, 0), 'A', Positions(0, 1, 0), 'X')
  {
    TableLengths();
    assert Lookup(RotorIIIForward, 0, 0) == 1;
    assert Lookup(RotorIIForward, 1, 1) == 2;
    assert Lookup(RotorIForward, 0, 2) == 12;
    assert Lookup(ReflectorBTable, 0, 12) == 14;
    assert Lookup(RotorIBackward, 0, 14) == 12;
    assert Lookup(RotorIIBackward, 1, 12) == 18;
    assert Lookup(RotorIIIBackward, 0, 18) == 23;
  }

  lemma SteppedKey26()
    ensures Press(FirstIII, Positions(0, 1, 0), 'A', Positions(1, 1, 0), 'Y')
  {
    TableLengths();
    assert Lookup(RotorIIIForward, 1, 0) == 2;
    assert Lookup(RotorIIForward, 1, 2) == 9;
    assert Lookup(RotorIForward, 0, 9) == 25;
    assert Lookup(ReflectorBTable, 0, 25) == 19;
    assert Lookup(RotorIBackward, 0, 19) == 11;
    assert Lookup(RotorIIBackward, 1, 11) == 13;
    assert Lookup(RotorIIIBackward, 1, 13) == 24;
  }

  lemma SteppedKey27()
    ensures Press(FirstIII, Positions(1, 1, 0), 'A', Positions(2, 1, 0), 'H')
  {
    TableLengths();
    assert Lookup(RotorIIIForward, 2, 0) == 3;
    assert Lookup(RotorIIForward, 1, 3) == 17;
    assert Lookup(RotorIForward, 0, 17) == 20;
    assert Lookup(ReflectorBTable, 0, 20) == 2;
    assert Lookup(RotorIBackward, 0, 2) == 24;
    assert Lookup(RotorIIBackward, 1, 24) == 17;
    assert Lookup(RotorIIIBackward, 2, 17) == 7;
  }

  lemma SteppedKey28()
    ensures Press(FirstIII, Positions(2, 1, 0), 'A', Positions(3, 1, 0), 'C')
  {
    TableLengths();
    assert Lookup(RotorIIIForward, 3, 0) == 4;
    assert Lookup(RotorIIForward, 1, 4) == 7;
    assert Lookup(RotorIForward, 0, 7) == 16;
    assert Lookup(ReflectorBTable, 0, 16) == 4;
    assert Lookup(RotorIBackward, 0, 4) == 0;
    assert Lookup(RotorIIBackward, 1, 0) == 8;
    assert Lookup(RotorIIIBackward, 3, 8) == 2;
  }

  lemma SteppedKey29()
    ensures Press(FirstIII, Positions(3, 1, 0), 'A', Positions(4, 1, 0), 'X')
  {
    TableLengths();
    assert Lookup(RotorIIIForward, 4, 0) == 5;
    assert Lookup(RotorIIForward, 1, 5) == 16;
    assert Lookup(RotorIForward, 0, 16) == 23;
    assert Lookup(ReflectorBTable, 0, 23) == 9;
    assert Lookup(RotorIBackward, 0, 9) == 25;
    assert Lookup(RotorIIBackward, 1, 25) == 25;
    assert Lookup(RotorIIIBackward, 4, 25) == 23;
  }

  lemma SteppedReplays1()
    ensures Replays(FirstIII, SteppedStates1, SteppedInput1, SteppedOutput1)
  {
    SteppedKey00();
    PressAt(FirstIII, SteppedStates1, SteppedInput1, SteppedOutput1, 0, Positions(0, 0, 0), 'A', Positions(1, 0, 0), 'B');
    SteppedKey01();
    PressAt(FirstIII, SteppedStates1, SteppedInput1, SteppedOutput1, 1, Positions(1, 0, 0), 'A', Positions(2, 0, 0), 'D');
    SteppedKey02();
    PressAt(FirstIII, SteppedStates1, SteppedInput1, SteppedOutput1, 2, Positions(2, 0, 0), 'A', Positions(3, 0, 0), 'Z');
    SteppedKey03();
    PressAt(FirstIII, SteppedStates1, SteppedInput1, SteppedOutput1, 3, Positions(3, 0, 0), 'A', Positions(4, 0, 0), 'G');
    SteppedKey04();
    PressAt(FirstIII, SteppedStates1, SteppedInput1, SteppedOutput1, 4, Positions(4, 0, 0), 'A', Positions(5, 0, 0), 'O');
  }

  lemma SteppedReplays2()
    ensures Replays(FirstIII, SteppedStates2, SteppedInput2, SteppedOutput2)
  {
    SteppedKey05();
    PressAt(FirstIII, SteppedStates2, SteppedInput2, SteppedOutput2, 0, Positions(5, 0, 0), 'A', Positions(6, 0, 0), 'W');
    SteppedKey06();
    PressAt(FirstIII, SteppedStates2, SteppedInput2, SteppedOutput2, 1, Positions(6, 0, 0), 'A', Positions(7, 0, 0), 'C');
    SteppedKey07();
    PressAt(FirstIII, SteppedStates2, SteppedInput2, SteppedOutput2, 2, Positions(7, 0, 0), 'A', Positions(8, 0, 0), 'X');
    SteppedKey08();
    PressAt(FirstIII, SteppedStates2, SteppedInput2, SteppedOutput2, 3, Positions(8, 0, 0), 'A', Positions(9, 0, 0), 'L');
    SteppedKey09();
    PressAt(FirstIII, SteppedStates2, SteppedInput2, SteppedOutput2, 4, Positions(9, 0, 0), 'A', Positions(10, 0, 0), 'T');
  }

  lemma SteppedReplays3()
    ensures Replays(FirstIII, SteppedStates3, SteppedInput3, SteppedOutput3)
  {
    SteppedKey10();
    PressAt(FirstIII, SteppedStates3, SteppedInput3, SteppedOutput3, 0, Positions(10, 0, 0), 'A', Positions(11, 0, 0), 'K');
    SteppedKey11();
    PressAt(FirstIII, SteppedStates3, SteppedInput3, SteppedOutput3, 1, Positions(11, 0, 0), 'A', Positions(12, 0, 0), 'S');
    SteppedKey12();
    PressAt(FirstIII, SteppedStates3, SteppedInput3, SteppedOutput3, 2, Positions(12, 0, 0), 'A', Positions(13, 0, 0), 'B');
    SteppedKey13();
    PressAt(FirstIII, SteppedStates3, SteppedInput3, SteppedOutput3, 3, Positions(13, 0, 0), 'A', Positions(14, 0, 0), 'T');
    SteppedKey14();
    PressAt(FirstIII, SteppedStates3, SteppedInput3, SteppedOutput3, 4, Positions(14, 0, 0), 'A', Positions(15, 0, 0), 'M');
  }

  lemma SteppedReplays4()
    ensures Replays(FirstIII, SteppedStates4, SteppedInput4, SteppedOutput4)
  {
    SteppedKey15();
    PressAt(FirstIII, SteppedStates4, SteppedInput4, SteppedOutput4, 0, Positions(15, 0, 0), 'A', Positions(16, 0, 0), 'C');
    SteppedKey16();
    PressAt(FirstIII, SteppedStates4, SteppedInput4, SteppedOutput4, 1, Positions(16, 0, 0), 'A', Positions(17, 0, 0), 'D');
    SteppedKey17();
    PressAt(FirstIII, SteppedStates4, SteppedInput4, SteppedOutput4, 2, Positions(17, 0, 0), 'A', Positions(18, 0, 0), 'L');
    SteppedKey18();
    PressAt(FirstIII, SteppedStates4, SteppedInput4, SteppedOutput4, 3, Positions(18, 0, 0), 'A', Positions(19, 0, 0), 'P');
    SteppedKey19();
    PressAt(FirstIII, SteppedStates4, SteppedInput4, SteppedOutput4, 4, Positions(19, 0, 0), 'A', Positions(20, 0, 0), 'B');
  }

  lemma SteppedReplays5()
    ensures Replays(FirstIII, SteppedStates5, SteppedInput5, SteppedOutput5)
  {
    SteppedKey20();
    PressAt(FirstIII, SteppedStates5, SteppedInput5, SteppedOutput5, 0, Positions(20, 0, 0), 'A', Positions(21, 0, 0), 'M');
    SteppedKey21();
    PressAt(FirstIII, SteppedStates5, SteppedInput5, SteppedOutput5, 1, Positions(21, 0, 0), 'A', Positions(22, 1, 0), 'U');
    SteppedKey22();
    PressAt(FirstIII, SteppedStates5, SteppedInput5, SteppedOutput5, 2, Positions(22, 1, 0), 'A', Positions(23, 1, 0), 'Q');
    SteppedKey23();
    PressAt(FirstIII, SteppedStates5, SteppedInput5, SteppedOutput5, 3, Positions(23, 1, 0), 'A', Positions(24, 1, 0), 'O');
    SteppedKey24();
    PressAt(FirstIII, SteppedStates5, SteppedInput5, SteppedOutput5, 4, Positions(24, 1, 0), 'A', Positions(25, 1, 0), 'F');
  }

  lemma SteppedReplays6()
    ensures Replays(FirstIII, SteppedStates6, SteppedInput6, SteppedOutput6)
  {
    SteppedKey25();
    PressAt(FirstIII, SteppedStates6, SteppedInput6, SteppedOutput6, 0, Positions(25, 1, 0), 'A', Positions(0, 1, 0), 'X');
    SteppedKey26();
    PressAt(FirstIII, SteppedStates6, SteppedInput6, SteppedOutput6, 1, Positions(0, 1, 0), 'A', Positions(1, 1, 0), 'Y');
    SteppedKey27();
    PressAt(FirstIII, SteppedStates6, SteppedInput6, SteppedOutput6, 2, Positions(1, 1, 0), 'A', Positions(2, 1, 0), 'H');
    SteppedKey28();
    PressAt(FirstIII, SteppedStates6, SteppedInput6, SteppedOutput6, 3, Positions(2, 1, 0), 'A', Positions(3, 1, 0), 'C');
    SteppedKey29();
    PressAt(FirstIII, SteppedStates6, SteppedInput6, SteppedOutput6, 4, Positions(3, 1, 0), 'A', Positions(4, 1, 0), 'X');
  }

  lemma SteppedReplays()
    ensures Replays(FirstIII, SteppedStates, SteppedInput, SteppedOutput)
  {
    TableLengths();
    SteppedReplays1();
    SteppedReplays2();
    SteppedReplays3();
    SteppedReplays4();
    SteppedReplays5();
    SteppedReplays6();
    ReplaysAppend(FirstIII, SteppedStates1, SteppedInput1, SteppedOutput1, SteppedStates2, SteppedInput2, SteppedOutput2);
    ReplaysAppend(FirstIII, SteppedStates1 + SteppedStates2[1..], SteppedInput1 + SteppedInput2, SteppedOutput1 + SteppedOutput2, SteppedStates3, SteppedInput3, SteppedOutput3);
    ReplaysAppend(FirstIII, SteppedStates1 + SteppedStates2[1..] + SteppedStates3[1..], SteppedInput1 + SteppedInput2 + SteppedInput3, SteppedOutput1 + SteppedOutput2 + SteppedOutput3, SteppedStates4, SteppedInput4, SteppedOutput4);
    ReplaysAppend(FirstIII, SteppedStates1 + SteppedStates2[1..] + SteppedStates3[1..] + SteppedStates4[1..], SteppedInput1 + SteppedInput2 + SteppedInput3 + SteppedInput4, SteppedOutput1 + SteppedOutput2 + SteppedOutput3 + SteppedOutput4, SteppedStates5, SteppedInput5, SteppedOutput5);
    ReplaysAppend(FirstIII, SteppedStates1 + SteppedStates2[1..] + SteppedStates3[1..] + SteppedStates4[1..] + SteppedStates5[1..], SteppedInput1 + SteppedInput2 + SteppedInput3 + SteppedInput4 + SteppedInput5, SteppedOutput1 + SteppedOutput2 + SteppedOutput3 + SteppedOutput4 + SteppedOutput5, SteppedStates6, SteppedInput6, SteppedOutput6);
  }

  lemma SteppedText()
    ensures SteppedInput == "AAAAAAAAAAAAAAAAAAAAAAAAAAAAAA" && SteppedOutput == "BDZGOWCXLTKSBTMCDLPBMUQOFXYHCX"
  {
  }

  /** The run from III at 20, II at 3: rotor II steps at the 3rd press and again, with rotor I, at the 4th. */
  const DoubleStepInput := "AAAAA"
  const DoubleStepOutput := "EQIBM"
  const DoubleStepStates: seq<Positions> :=
    [Positions(20, 3, 0), Positions(21, 3, 0), Positions(22, 4, 0), Positions(23, 5, 1), Positions(24, 5, 1), Positions(25, 5, 1)]

  lemma DoubleStepKey00()
    ensures Press(FirstIII, Positions(20, 3, 0), 'A', Positions(21, 3, 0), 'E')
  {
    TableLengths();
    assert Lookup(RotorIIIForward, 21, 0) == 17;
    assert Lookup(RotorIIForward, 3, 17) == 12;
    assert Lookup(RotorIForward, 0, 12) == 14;
    assert Lookup(ReflectorBTable, 0, 14) == 12;
    assert Lookup(RotorIBackward, 0, 12) == 2;
    assert Lookup(RotorIIBackward, 3, 2) == 19;
    assert Lookup(RotorIIIBackward, 21, 19) == 4;
  }

  lemma DoubleStepKey01()
    ensures Press(FirstIII, Positions(21, 3, 0), 'A', Positions(22, 4, 0), 'Q')
  {
    TableLengths();
    assert Lookup(RotorIIIForward, 22, 0) == 24;
    assert Lookup(RotorIIForward, 4, 24) == 25;
    assert Lookup(RotorIForward, 0, 25) == 9;
    assert Lookup(ReflectorBTable, 0, 9) == 23;
    assert Lookup(RotorIBackward, 0, 23) == 16;
    assert Lookup(RotorIIBackward, 4, 16) == 3;
    assert Lookup(RotorIIIBackward, 22, 3) == 16;
  }

  lemma DoubleStepKey02()
    ensures Press(FirstIII, Positions(22, 4, 0), 'A', Positions(23, 5, 1), 'I')
  {
    TableLengths();
    assert Lookup(RotorIIIForward, 23, 0) == 21;
    assert Lookup(RotorIIForward, 5, 21) == 21;
    assert Lookup(RotorIForward, 1, 21) == 0;
    assert Lookup(ReflectorBTable, 0, 0) == 24;
    assert Lookup(RotorIBackward, 1, 24) == 8;
    assert Lookup(RotorIIBackward, 5, 8) == 14;
    assert Lookup(RotorIIIBackward, 23, 14) == 8;
  }

  lemma DoubleStepKey03()
    ensures Press(FirstIII, Positions(23, 5, 1), 'A', Positions(24, 5, 1), 'B')
  {
    TableLengths();
    assert Lookup(RotorIIIForward, 24, 0) == 18;
    assert Lookup(RotorIIForward, 5, 18) == 16;
    assert Lookup(RotorIForward, 1, 16) == 19;
    assert Lookup(ReflectorBTable, 0, 19) == 25;
    assert Lookup(RotorIBackward, 1, 25) == 19;
    assert Lookup(RotorIIBackward, 5, 19) == 16;
    assert Lookup(RotorIIIBackward, 24, 16) == 1;
  }

  lemma DoubleStepKey04()
    ensures Press(FirstIII, Positions(24, 5, 1), 'A', Positions(25, 5, 1), 'M')
  {
    TableLengths();
    assert Lookup(RotorIIIForward, 25, 0) == 15;
    assert Lookup(RotorIIForward, 5, 15) == 10;
    assert Lookup(RotorIForward, 1, 10) == 18;
    assert Lookup(ReflectorBTable, 0, 18) == 5;
    assert Lookup(RotorIBackward, 1, 5) == 4;
    assert Lookup(RotorIIBackward, 5, 4) == 22;
    assert Lookup(RotorIIIBackward, 25, 22) == 12;
  }

  lemma DoubleStepReplays()
    ensures Replays(FirstIII, DoubleStepStates, DoubleStepInput, DoubleStepOutput)
  {
    DoubleStepKey00();
    PressAt(FirstIII, DoubleStepStates, DoubleStepInput, DoubleStepOutput, 0, Positions(20, 3, 0), 'A', Positions(21, 3, 0), 'E');
    DoubleStepKey01();
    PressAt(FirstIII, DoubleStepStates, DoubleStepInput, DoubleStepOutput, 1, Positions(21, 3, 0), 'A', Positions(22, 4, 0), 'Q');
    DoubleStepKey02();
    PressAt(FirstIII, DoubleStepStates, DoubleStepInput, DoubleStepOutput, 2, Positions(22, 4, 0), 'A', Positions(23, 5, 1), 'I');
    DoubleStepKey03();
    PressAt(FirstIII, DoubleStepStates, DoubleStepInput, DoubleStepOutput, 3, Positions(23, 5, 1), 'A', Positions(24, 5, 1), 'B');
    DoubleStepKey04();
    PressAt(FirstIII, DoubleStepStates, DoubleStepInput, DoubleStepOutput, 4, Positions(24, 5, 1), 'A', Positions(25, 5, 1), 'M');
  }

  /** The run from rotors III (ring setting 1), II, I at AAA. */
  const RingSettingInput := "AAAAA"
  const RingSettingOutput := "UBDZG"
  const RingSettingStates: seq<Positions> :=
    [Positions(0, 0, 0), Positions(1, 0, 0), Positions(2, 0, 0), Positions(3, 0, 0), Positions(4, 0, 0), Positions(5, 0, 0)]

  lemma RingSettingKey00()
    ensures Press(FirstIIIRing1, Positions(0, 0, 0), 'A', Positions(1, 0, 0), 'U')
  {
    TableLengths();
    assert Lookup(RotorIIIRing1Forward, 1, 0) == 1;
    assert Lookup(RotorIIForward, 0, 1) == 9;
    assert Lookup(RotorIForward, 0, 9) == 25;
    assert Lookup(ReflectorBTable, 0, 25) == 19;
    assert Lookup(RotorIBackward, 0, 19) == 11;
    assert Lookup(RotorIIBackward, 0, 11) == 10;
    assert Lookup(RotorIIIRing1Backward, 1, 10) == 20;
  }

  lemma RingSettingKey01()
    ensures Press(FirstIIIRing1, Positions(1, 0, 0), 'A', Positions(2, 0, 0), 'B')
  {
    TableLengths();
    assert Lookup(RotorIIIRing1Forward, 2, 0) == 2;
    assert Lookup(RotorIIForward, 0, 2) == 3;
    assert Lookup(RotorIForward, 0, 3) == 5;
    assert Lookup(ReflectorBTable, 0, 5) == 18;
    assert Lookup(RotorIBackward, 0, 18) == 18;
    assert Lookup(RotorIIBackward, 0, 18) == 4;
    assert Lookup(RotorIIIRing1Backward, 2, 4) == 1;
  }

  lemma RingSettingKey02()
    ensures Press(FirstIIIRing1, Positions(2, 0, 0), 'A', Positions(3, 0, 0), 'D')
  {
    TableLengths();
    assert Lookup(RotorIIIRing1Forward, 3, 0) == 3;
    assert Lookup(RotorIIForward, 0, 3) == 10;
    assert Lookup(RotorIForward, 0, 10) == 13;
    assert Lookup(ReflectorBTable, 0, 13) == 10;
    assert Lookup(RotorIBackward, 0, 10) == 1;
    assert Lookup(RotorIIBackward, 0, 1) == 9;
    assert Lookup(RotorIIIRing1Backward, 3, 9) == 3;
  }

  lemma RingSettingKey03()
    ensures Press(FirstIIIRing1, Positions(3, 0, 0), 'A', Positions(4, 0, 0), 'Z')
  {
    TableLengths();
    assert Lookup(RotorIIIRing1Forward, 4, 0) == 4;
    assert Lookup(RotorIIForward, 0, 4) == 18;
    assert Lookup(RotorIForward, 0, 18) == 18;
    assert Lookup(ReflectorBTable, 0, 18) == 5;
    assert Lookup(RotorIBackward, 0, 5) == 3;
    assert Lookup(RotorIIBackward, 0, 3) == 2;
    assert Lookup(RotorIIIRing1Backward, 4, 2) == 25;
  }

  lemma RingSettingKey04()
    ensures Press(FirstIIIRing1, Positions(4, 0, 0), 'A', Positions(5, 0, 0), 'G')
  {
    TableLengths();
    assert Lookup(RotorIIIRing1Forward, 5, 0) == 5;
    assert Lookup(RotorIIForward, 0, 5) == 8;
    assert Lookup(RotorIForward, 0, 8) == 21;
    assert Lookup(ReflectorBTable, 0, 21) == 22;
    assert Lookup(RotorIBackward, 0, 22) == 13;
    assert Lookup(RotorIIBackward, 0, 13) == 19;
    assert Lookup(RotorIIIRing1Backward, 5, 19) == 6;
  }

  lemma RingSettingReplays()
    ensures Replays(FirstIIIRing1, RingSettingStates, RingSettingInput, RingSettingOutput)
  {
    RingSettingKey00();
    PressAt(FirstIIIRing1, RingSettingStates, RingSettingInput, RingSettingOutput, 0, Positions(0, 0, 0), 'A', Positions(1, 0, 0), 'U');
    RingSettingKey01();
    PressAt(FirstIIIRing1, RingSettingStates, RingSettingInput, RingSettingOutput, 1, Positions(1, 0, 0), 'A', Positions(2, 0, 0), 'B');
    RingSettingKey02();
    PressAt(FirstIIIRing1, RingSettingStates, RingSettingInput, RingSettingOutput, 2, Positions(2, 0, 0), 'A', Positions(3, 0, 0), 'D');
    RingSettingKey03();
    PressAt(FirstIIIRing1, RingSettingStates, RingSettingInput, RingSettingOutput, 3, Positions(3, 0, 0), 'A', Positions(4, 0, 0), 'Z');
    RingSettingKey04();
    PressAt(FirstIIIRing1, RingSettingStates, RingSettingInput, RingSettingOutput, 4, Positions(4, 0, 0), 'A', Positions(5, 0, 0), 'G');
  }

  /** The run from VIII at 11, II at 3, in three parts of five presses: VIII has two notches, so rotor II steps after both 12 and 25. */
  const DoubleNotchedInput1 := "ABCDE"
  const DoubleNotchedOutput1 := "DDFQJ"
  const DoubleNotchedStates1: seq<Positions> :=
    [Positions(11, 3, 0), Positions(12, 3, 0), Positions(13, 4, 0), Positions(14, 5, 1), Positions(15, 5, 1), Positions(16, 5, 1)]
  const DoubleNotchedInput2 := "FGHIJ"
  const DoubleNotchedOutput2 := "KCQQX"
  const DoubleNotchedStates2: seq<Positions> :=
    [Positions(16, 5, 1), Positions(17, 5, 1), Positions(18, 5, 1), Positions(19, 5, 1), Positions(20, 5, 1), Positions(21, 5, 1)]
  const DoubleNotchedInput3 := "KLMNO"
  const DoubleNotchedOutput3 := "BZZQK"
  const DoubleNotchedStates3: seq<Positions> :=
    [Positions(21, 5, 1), Positions(22, 5, 1), Positions(23, 5, 1), Positions(24, 5, 1), Positions(25, 5, 1), Positions(0, 6, 1)]
  const DoubleNotchedInput := DoubleNotchedInput1 + DoubleNotchedInput2 + DoubleNotchedInput3
  const DoubleNotchedOutput := DoubleNotchedOutput1 + DoubleNotchedOutput2 + DoubleNotchedOutput3
  const DoubleNotchedStates := DoubleNotchedStates1 + DoubleNotchedStates2[1..] + DoubleNotchedStates3[1..]

  lemma DoubleNotchedKey00()
    ensures Press(FirstVIII, Positions(11, 3, 0), 'A', Positions(12, 3, 0), 'D')
  {
    TableLengths();
    assert Lookup(RotorVIIIForward, 12, 0) == 3;
    assert Lookup(RotorIIForward, 3, 3) == 14;
    assert Lookup(RotorIForward, 0, 14) == 24;
    assert Lookup(ReflectorBTable, 0, 24) == 0;
    assert Lookup(RotorIBackward, 0, 0) == 20;
    assert Lookup(RotorIIBackward, 3, 20) == 5;
    assert Lookup(RotorVIIIBackward, 12, 5) == 3;
  }

  lemma DoubleNotchedKey01()
    ensures Press(FirstVIII, Positions(12, 3, 0), 'B', Positions(13, 4, 0), 'D')
  {
    TableLengths();
    assert Lookup(RotorVIIIForward, 13, 1) == 12;
    assert Lookup(RotorIIForward, 4, 12) == 12;
    assert Lookup(RotorIForward, 0, 12) == 14;
    assert Lookup(ReflectorBTable, 0, 14) == 12;
    assert Lookup(RotorIBackward, 0, 12) == 2;
    assert Lookup(RotorIIBackward, 4, 2) == 13;
    assert Lookup(RotorVIIIBackward, 13, 13) == 3;
  }

  lemma DoubleNotchedKey02()
    ensures Press(FirstVIII, Positions(13, 4, 0), 'C', Positions(14, 5, 1), 'F')
  {
    TableLengths();
    assert Lookup(RotorVIIIForward, 14, 2) == 12;
    assert Lookup(RotorIIForward, 5, 12) == 1;
    assert Lookup(RotorIForward, 1, 1) == 11;
    assert Lookup(ReflectorBTable, 0, 11) == 6;
    assert Lookup(RotorIBackward, 1, 6) == 14;
    assert Lookup(RotorIIBackward, 5, 14) == 8;
    assert Lookup(RotorVIIIBackward, 14, 8) == 5;
  }

  lemma DoubleNotchedKey03()
    ensures Press(FirstVIII, Positions(14, 5, 1), 'D', Positions(15, 5, 1), 'Q')
  {
    TableLengths();
    assert Lookup(RotorVIIIForward, 15, 3) == 15;
    assert Lookup(RotorIIForward, 5, 15) == 10;
    assert Lookup(RotorIForward, 1, 10) == 18;
    assert Lookup(ReflectorBTable, 0, 18) == 5;
    assert Lookup(RotorIBackward, 1, 5) == 4;
    assert Lookup(RotorIIBackward, 5, 4) == 22;
    assert Lookup(RotorVIIIBackward, 15, 22) == 16;
  }

  lemma DoubleNotchedKey04()
    ensures Press(FirstVIII, Positions(15, 5, 1), 'E', Positions(16, 5, 1), 'J')
  {
    TableLengths();
    assert Lookup(RotorVIIIForward, 16, 4) == 23;
    assert Lookup(RotorIIForward, 5, 23) == 24;
    assert Lookup(RotorIForward, 1, 24) == 8;
    assert Lookup(ReflectorBTable, 0, 8) == 15;
    assert Lookup(RotorIBackward, 1, 15) == 6;
    assert Lookup(RotorIIBackward, 5, 6) == 5;
    assert Lookup(RotorVIIIBackward, 16, 5) == 9;
  }

  lemma DoubleNotchedKey05()
    ensures Press(FirstVIII, Positions(16, 5, 1), 'F', Positions(17, 5, 1), 'K')
  {
    TableLengths();
    assert Lookup(RotorVIIIForward, 17, 5) == 3;
    assert Lookup(RotorIIForward, 5, 3) == 18;
    assert Lookup(RotorIForward, 1, 18) == 14;
    assert Lookup(ReflectorBTable, 0, 14) == 12;
    assert Lookup(RotorIBackward, 1, 12) == 9;
    assert Lookup(RotorIIBackward, 5, 9) == 19;
    assert Lookup(RotorVIIIBackward, 17, 19) == 10;
  }

  lemma DoubleNotchedKey06()
    ensures Press(FirstVIII, Positions(17, 5, 1), 'G', Positions(18, 5, 1), 'C')
  {
    TableLengths();
    assert Lookup(RotorVIIIForward, 18, 6) == 14;
    assert Lookup(RotorIIForward, 5, 14) == 8;
    assert Lookup(RotorIForward, 1, 8) == 24;
    assert Lookup(ReflectorBTable, 0, 24) == 0;
    assert Lookup(RotorIBackward, 1, 0) == 21;
    assert Lookup(RotorIIBackward, 5, 21) == 21;
    assert Lookup(RotorVIIIBackward, 18, 21) == 2;
  }

  lemma DoubleNotchedKey07()
    ensures Press(FirstVIII, Positions(18, 5, 1), 'H', Positions(19, 5, 1), 'Q')
  {
    TableLengths();
    assert Lookup(RotorVIIIForward, 19, 7) == 12;
    assert Lookup(RotorIIForward, 5, 12) == 1;
    assert Lookup(RotorIForward, 1, 1) == 11;
    assert Lookup(ReflectorBTable, 0, 11) == 6;
    assert Lookup(RotorIBackward, 1, 6) == 14;
    assert Lookup(RotorIIBackward, 5, 14) == 8;
    assert Lookup(RotorVIIIBackward, 19, 8) == 16;
  }

  lemma DoubleNotchedKey08()
    ensures Press(FirstVIII, Positions(19, 5, 1), 'I', Positions(20, 5, 1), 'Q')
  {
    TableLengths();
    assert Lookup(RotorVIIIForward, 20, 8) == 22;
    assert Lookup(RotorIIForward, 5, 22) == 4;
    assert Lookup(RotorIForward, 1, 4) == 5;
    assert Lookup(ReflectorBTable, 0, 5) == 18;
    assert Lookup(RotorIBackward, 1, 18) == 10;
    assert Lookup(RotorIIBackward, 5, 10) == 15;
    assert Lookup(RotorVIIIBackward, 20, 15) == 16;
  }

  lemma DoubleNotchedKey09()
    ensures Press(FirstVIII, Positions(20, 5, 1), 'J', Positions(21, 5, 1), 'X')
  {
    TableLengths();
    assert Lookup(RotorVIIIForward, 21, 9) == 24;
    assert Lookup(RotorIIForward, 5, 24) == 5;
    assert Lookup(RotorIForward, 1, 5) == 2;
    assert Lookup(ReflectorBTable, 0, 2) == 20;
    assert Lookup(RotorIBackward, 1, 20) == 7;
    assert Lookup(RotorIIBackward, 5, 7) == 9;
    assert Lookup(RotorVIIIBackward, 21, 9) == 23;
  }

  lemma DoubleNotchedKey10()
    ensures Press(FirstVIII, Positions(21, 5, 1), 'K', Positions(22, 5, 1), 'B')
  {
    TableLengths();
    assert Lookup(RotorVIIIForward, 22, 10) == 1;
    assert Lookup(RotorIIForward, 5, 1) == 12;
    assert Lookup(RotorIForward, 1, 12) == 21;
    assert Lookup(ReflectorBTable, 0, 21) == 22;
    assert Lookup(RotorIBackward, 1, 22) == 15;
    assert Lookup(RotorIIBackward, 5, 15) == 2;
    assert Lookup(RotorVIIIBackward, 22, 2) == 1;
  }

  lemma DoubleNotchedKey11()
    ensures Press(FirstVIII, Positions(22, 5, 1), 'L', Positions(23, 5, 1), 'Z')
  {
    TableLengths();
    assert Lookup(RotorVIIIForward, 23, 11) == 5;
    assert Lookup(RotorIIForward, 5, 5) == 6;
    assert Lookup(RotorIForward, 1, 6) == 15;
    assert Lookup(ReflectorBTable, 0, 15) == 8;
    assert Lookup(RotorIBackward, 1, 8) == 24;
    assert Lookup(RotorIIBackward, 5, 24) == 23;
    assert Lookup(RotorVIIIBackward, 23, 23) == 25;
  }

  lemma DoubleNotchedKey12()
    ensures Press(FirstVIII, Positions(23, 5, 1), 'M', Positions(24, 5, 1), 'Z')
  {
    TableLengths();
    assert Lookup(RotorVIIIForward, 24, 12) == 11;
    assert Lookup(RotorIIForward, 5, 11) == 11;
    assert Lookup(RotorIForward, 1, 11) == 13;
    assert Lookup(ReflectorBTable, 0, 13) == 10;
    assert Lookup(RotorIBackward, 1, 10) == 3;
    assert Lookup(RotorIIBackward, 5, 3) == 0;
    assert Lookup(RotorVIIIBackward, 24, 0) == 25;
  }

  lemma DoubleNotchedKey13()
    ensures Press(FirstVIII, Positions(24, 5, 1), 'N', Positions(25, 5, 1), 'Q')
  {
    TableLengths();
    assert Lookup(RotorVIIIForward, 25, 13) == 16;
    assert Lookup(RotorIIForward, 5, 16) == 19;
    assert Lookup(RotorIForward, 1, 19) == 25;
    assert Lookup(ReflectorBTable, 0, 25) == 19;
    assert Lookup(RotorIBackward, 1, 19) == 16;
    assert Lookup(RotorIIBackward, 5, 16) == 18;
    assert Lookup(RotorVIIIBackward, 25, 18) == 16;
  }

  lemma DoubleNotchedKey14()
    ensures Press(FirstVIII, Positions(25, 5, 1), 'O', Positions(0, 6, 1), 'K')
  {
    TableLengths();
    assert Lookup(RotorVIIIForward, 0, 14) == 25;
    assert Lookup(RotorIIForward, 6, 25) == 2;
    assert Lookup(RotorIForward, 1, 2) == 4;
    assert Lookup(ReflectorBTable, 0, 4) == 16;
    assert Lookup(RotorIBackward, 1, 16) == 22;
    assert Lookup(RotorIIBackward, 6, 22) == 9;
    assert Lookup(RotorVIIIBackward, 0, 9) == 10;
  }

  lemma DoubleNotchedReplays1()
    ensures Replays(FirstVIII, DoubleNotchedStates1, DoubleNotchedInput1, DoubleNotchedOutput1)
  {
    DoubleNotchedKey00();
    PressAt(FirstVIII, DoubleNotchedStates1, DoubleNotchedInput1, DoubleNotchedOutput1, 0, Positions(11, 3, 0), 'A', Positions(12, 3, 0), 'D');
    DoubleNotchedKey01();
    PressAt(FirstVIII, DoubleNotchedStates1, DoubleNotchedInput1, DoubleNotchedOutput1, 1, Positions(12, 3, 0), 'B', Positions(13, 4, 0), 'D');
    DoubleNotchedKey02();
    PressAt(FirstVIII, DoubleNotchedStates1, DoubleNotchedInput1, DoubleNotchedOutput1, 2, Positions(13, 4, 0), 'C', Positions(14, 5, 1), 'F');
    DoubleNotchedKey03();
    PressAt(FirstVIII, DoubleNotchedStates1, DoubleNotchedInput1, DoubleNotchedOutput1, 3, Positions(14, 5, 1), 'D', Positions(15, 5, 1), 'Q');
    DoubleNotchedKey04();
    PressAt(FirstVIII, DoubleNotchedStates1, DoubleNotchedInput1, DoubleNotchedOutput1, 4, Positions(15, 5, 1), 'E', Positions(16, 5, 1), 'J');
  }

  lemma DoubleNotchedReplays2()
    ensures Replays(FirstVIII, DoubleNotchedStates2, DoubleNotchedInput2, DoubleNotchedOutput2)
  {
    DoubleNotchedKey05();
    PressAt(FirstVIII, DoubleNotchedStates2, DoubleNotchedInput2, DoubleNotchedOutput2, 0, Positions(16, 5, 1), 'F', Positions(17, 5, 1), 'K');
    DoubleNotchedKey06();
    PressAt(FirstVIII, DoubleNotchedStates2, DoubleNotchedInput2, DoubleNotchedOutput2, 1, Positions(17, 5, 1), 'G', Positions(18, 5, 1), 'C');
    DoubleNotchedKey07();
    PressAt(FirstVIII, DoubleNotchedStates2, DoubleNotchedInput2, DoubleNotchedOutput2, 2, Positions(18, 5, 1), 'H', Positions(19, 5, 1), 'Q');
    DoubleNotchedKey08();
    PressAt(FirstVIII, DoubleNotchedStates2, DoubleNotchedInput2, DoubleNotchedOutput2, 3, Positions(19, 5, 1), 'I', Positions(20, 5, 1), 'Q');
    DoubleNotchedKey09();
    PressAt(FirstVIII, DoubleNotchedStates2, DoubleNotchedInput2, DoubleNotchedOutput2, 4, Positions(20, 5, 1), 'J', Positions(21, 5, 1), 'X');
  }

  lemma DoubleNotchedReplays3()
    ensures Replays(FirstVIII, DoubleNotchedStates3, DoubleNotchedInput3, DoubleNotchedOutput3)
  {
    DoubleNotchedKey10();
    PressAt(FirstVIII, DoubleNotchedStates3, DoubleNotchedInput3, DoubleNotchedOutput3, 0, Positions(21, 5, 1), 'K', Positions(22, 5, 1), 'B');
    DoubleNotchedKey11();
    PressAt(FirstVIII, DoubleNotchedStates3, DoubleNotchedInput3, DoubleNotchedOutput3, 1, Positions(22, 5, 1), 'L', Positions(23, 5, 1), 'Z');
    DoubleNotchedKey12();
    PressAt(FirstVIII, DoubleNotchedStates3, DoubleNotchedInput3, DoubleNotchedOutput3, 2, Positions(23, 5, 1), 'M', Positions(24, 5, 1), 'Z');
    DoubleNotchedKey13();
    PressAt(FirstVIII, DoubleNotchedStates3, DoubleNotchedInput3, DoubleNotchedOutput3, 3, Positions(24, 5, 1), 'N', Positions(25, 5, 1), 'Q');
    DoubleNotchedKey14();
    PressAt(FirstVIII, DoubleNotchedStates3, DoubleNotchedInput3, DoubleNotchedOutput3, 4, Positions(25, 5, 1), 'O', Positions(0, 6, 1), 'K');
  }

  lemma DoubleNotchedReplays()
    ensures Replays(FirstVIII, DoubleNotchedStates, DoubleNotchedInput, DoubleNotchedOutput)
  {
    TableLengths();
    DoubleNotchedReplays1();
    DoubleNotchedReplays2();
    DoubleNotchedReplays3();
    ReplaysAppend(FirstVIII, DoubleNotchedStates1, DoubleNotchedInput1, DoubleNotchedOutput1, DoubleNotchedStates2, DoubleNotchedInput2, DoubleNotchedOutput2);
    ReplaysAppend(FirstVIII, DoubleNotchedStates1 + DoubleNotchedStates2[1..], DoubleNotchedInput1 + DoubleNotchedInput2, DoubleNotchedOutput1 + DoubleNotchedOutput2, DoubleNotchedStates3, DoubleNotchedInput3, DoubleNotchedOutput3);
  }

  lemma DoubleNotchedText()
    ensures DoubleNotchedInput == "ABCDEFGHIJKLMNO" && DoubleNotchedOutput == "DDFQJKCQQXBZZQK"
  {
  }
  // ---------------------------------------------------------------------
  // The tests of enigma/enigma_test.go: NewEnigma, then EncodeString
  // ---------------------------------------------------------------------

  /** Rotor III for the first slot, at ring setting 0. */
  function RotorIIIAt(p0: int): RotorConfiguration {
    RotorConfiguration("III", RotorIII, p0, 0, [NotchIII])
  }

  /** "base": rotors III, II, I at AAA, reflector B, no plugs; AAAAA gives BDZGO, the first part of the thirty-letter run. */
  lemma BaseScenario()
    ensures var m := Assemble(TestConfigurations(RotorIIIAt(0), 0, 0), ReflectorB, []);
            m.Ok? && EncodeMessage(m.value, "AAAAA").cipher == "BDZGO"
  {
    FirstIIIBuilt(0);
    AssembledTestMachine(RotorIIIAt(0), FirstIII, Positions(0, 0, 0));
    SteppedReplays1();
    ReplayIsEncoding(FirstIII, SteppedStates1, SteppedInput1, SteppedOutput1);
  }

  /** "stepped": the same machine, thirty As. */
  lemma SteppedScenario()
    ensures var m := Assemble(TestConfigurations(RotorIIIAt(0), 0, 0), ReflectorB, []);
            m.Ok? && EncodeMessage(m.value, "AAAAAAAAAAAAAAAAAAAAAAAAAAAAAA").cipher == "BDZGOWCXLTKSBTMCDLPBMUQOFXYHCX"
  {
    FirstIIIBuilt(0);
    AssembledTestMachine(RotorIIIAt(0), FirstIII, Positions(0, 0, 0));
    SteppedReplays();
    SteppedText();
    ReplayIsEncoding(FirstIII, SteppedStates, SteppedInput, SteppedOutput);
  }

  /** "double stepped": III at 20, II at 3; AAAAA gives EQIBM. */
  lemma DoubleStepScenario()
    ensures var m := Assemble(TestConfigurations(RotorIIIAt(20), 3, 0), ReflectorB, []);
            m.Ok? && EncodeMessage(m.value, "AAAAA").cipher == "EQIBM"
  {
    FirstIIIBuilt(20);
    AssembledTestMachine(RotorIIIAt(20), FirstIII, Positions(20, 3, 0));
    DoubleStepReplays();
    ReplayIsEncoding(FirstIII, DoubleStepStates, DoubleStepInput, DoubleStepOutput);
  }

  /** "double notched": VIII at 11, II at 3; ABCDEFGHIJKLMNO gives DDFQJKCQQXBZZQK. */
  lemma DoubleNotchedScenario()
    ensures var first := RotorConfiguration("VIII", RotorVIII, 11, 0, [NotchVIToVIIIA, NotchVIToVIIIB]);
            var m := Assemble(TestConfigurations(first, 3, 0), ReflectorB, []);
            m.Ok? && EncodeMessage(m.value, "ABCDEFGHIJKLMNO").cipher == "DDFQJKCQQXBZZQK"
  {
    var first := RotorConfiguration("VIII", RotorVIII, 11, 0, [NotchVIToVIIIA, NotchVIToVIIIB]);
    FirstVIIIBuilt(11);
    AssembledTestMachine(first, FirstVIII, Positions(11, 3, 0));
    DoubleNotchedReplays();
    DoubleNotchedText();
    ReplayIsEncoding(FirstVIII, DoubleNotchedStates, DoubleNotchedInput, DoubleNotchedOutput);
  }

  /** "ring setting": III with ring setting 1, II, I at AAA; AAAAA gives UBDZG. */
  lemma RingSettingScenario()
    ensures var first := RotorConfiguration("III", RotorIII, 0, 1, [NotchIII]);
            var m := Assemble(TestConfigurations(first, 0, 0), ReflectorB, []);
            m.Ok? && EncodeMessage(m.value, "AAAAA").cipher == "UBDZG"
  {
    var first := RotorConfiguration("III", RotorIII, 0, 1, [NotchIII]);
    FirstIIIRing1Built(0);
    AssembledTestMachine(first, FirstIIIRing1, Positions(0, 0, 0));
    RingSettingReplays();
    ReplayIsEncoding(FirstIIIRing1, RingSettingStates, RingSettingInput, RingSettingOutput);
  }

  /**
   * TestEncodeStringReverse: from the base machine, encoding the ciphertext
   * of any letter message gives the message back.
   */
  lemma ReverseScenario(s: string)
    requires AllAllowed(s)
    ensures var m := Assemble(TestConfigurations(RotorIIIAt(0), 0, 0), ReflectorB, []);
            m.Ok? && EncodeMessage(m.value, EncodeMessage(m.value, s).cipher).cipher == s
  {
    FirstIIIBuilt(0);
    AssembledTestMachine(RotorIIIAt(0), FirstIII, Positions(0, 0, 0));
    TestMachineWellFormed(FirstIII, Positions(0, 0, 0));
    EncodeMessageReciprocal(TestMachine(FirstIII, Positions(0, 0, 0)), s);
  }

  // ---------------------------------------------------------------------
  // Plugboard tests
  // ---------------------------------------------------------------------

  /** TestTraverse: a plugged symbol goes to its partner, an unplugged one is kept. */
  lemma PlugboardTraverseScenario()
    ensures var p := Plugboards.Plugboard(map[0 := 25, 25 := 0]);
            Plugboards.Traverse(p, 0) == 25 && Plugboards.Traverse(p, 1) == 1
  {
  }

  /** TestNewPlugboard: each pair is entered in both directions. */
  lemma NewPlugboardScenario()
    ensures Plugboards.BuildPlugboard([[0, 25]])
            == Ok(Plugboards.Plugboard(map[0 := 25, 25 := 0]))
    ensures Plugboards.BuildPlugboard([[0, 25], [7, 12]])
            == Ok(Plugboards.Plugboard(map[0 := 25, 25 := 0, 7 := 12, 12 := 7]))
  {
  }

  /** TestInvalidPlugboard: a self link and a symbol used twice are rejected. */
  lemma InvalidPlugboardScenario()
    ensures Plugboards.BuildPlugboard([[0, 0]]) == Err(Plugboards.SelfPair([0, 0]))
    ensures Plugboards.BuildPlugboard([[0, 25], [0, 24]]) == Err(Plugboards.RepeatedSymbol([0, 24]))
    ensures Plugboards.BuildPlugboard([[0, 25], [1, 25]]) == Err(Plugboards.RepeatedSymbol([1, 25]))
  {
  }

  /**
   * The "more than 5" case of TestInvalidPlugboard: newPlugboard caps the
   * number of pairs at ten, so six disjoint pairs are accepted.
   */
  lemma SixPairsAccepted()
    ensures Plugboards.BuildPlugboard([[0, 25], [7, 12], [6, 13], [5, 14], [4, 15], [3, 16]]).Ok?
  {
  }
}
