/**
 * The rotor of the cipher machine (enigma/rotor.go): building the pair of
 * lookup tables from a wiring string and a ring setting, validating a rotor
 * configuration, the position-offset traversal and the single-step advance.
 *
 * Behaviour lives in functions over values (Wiring, RotorModel); the class
 * Rotor holds the one piece of state the source updates in place, the
 * position, and its method Cycle is proved against those functions.
 */
module Rotors {
  import opened Results

  /** The sentinel of an unfilled table slot (emptyConnections). */
  const Unfilled := -1

  // ---------------------------------------------------------------------
  // Letters and arithmetic on the 26 symbols
  // ---------------------------------------------------------------------

  /** isAllowedCharacter: only the upper-case letters A..Z are accepted. */
  predicate IsAllowedCharacter(c: char) {
    'A' <= c <= 'Z'
  }

  /** A letter's symbol: the character minus the rune offset of 'A'. */
  function Index(c: char): (x: int)
    ensures IsAllowedCharacter(c) <==> 0 <= x < 26
  {
    c as int - 'A' as int
  }

  /** Distinct characters have distinct symbols. */
  lemma IndexInjective(a: char, b: char)
    ensures a == b <==> Index(a) == Index(b)
  {
  }

  /** The letter of a symbol in 0..25. */
  function Letter(x: int): (c: char)
    requires 0 <= x < 26
    ensures IsAllowedCharacter(c) && Index(c) == x
  {
    (x + 'A' as int) as char
  }

  /** Letter and Index are inverse on the upper-case letters. */
  lemma LetterOfIndex(c: char)
    requires IsAllowedCharacter(c)
    ensures Letter(Index(c)) == c
  {
  }

  /** The source's "add, then subtract 26 if above 25" on symbols. */
  function AddMod(a: int, b: int): (r: int)
    requires 0 <= a < 26 && 0 <= b < 26
    ensures 0 <= r < 26 && r == (a + b) % 26
  {
    if a + b > 25 then a + b - 26 else a + b
  }

  /** The source's "subtract, then add 26 if below 0" on symbols. */
  function SubMod(a: int, b: int): (r: int)
    requires 0 <= a < 26 && 0 <= b < 26
    ensures 0 <= r < 26 && r == (a - b) % 26
  {
    if a - b < 0 then a - b + 26 else a - b
  }

  predicate AllAllowed(s: string) {
    forall i :: 0 <= i < |s| ==> IsAllowedCharacter(s[i])
  }

  predicate Distinct(s: string) {
    forall i, j :: 0 <= i < j < |s| ==> s[i] != s[j]
  }

  // ---------------------------------------------------------------------
  // Counting letters: a string of distinct letters has at most 26 of them,
  // and one of exactly 26 contains every letter.
  // ---------------------------------------------------------------------

  ghost function Range(n: nat): set<int> {
    if n == 0 then {} else Range(n - 1) + {n - 1}
  }

  lemma {:induction false} RangeMembers(n: nat)
    ensures forall x :: x in Range(n) <==> 0 <= x < n
  {
    if n > 0 {
      RangeMembers(n - 1);
    }
  }

  ghost function Codes(s: string): set<int> {
    set i | 0 <= i < |s| :: Index(s[i])
  }

  lemma {:induction false} RangeCard(n: nat)
    ensures |Range(n)| == n
  {
    if n > 0 {
      RangeCard(n - 1);
      RangeMembers(n - 1);
    }
  }

  lemma SubsetCard(a: set<int>, b: set<int>)
    requires a <= b
    ensures |a| <= |b|
  {
    assert b == a + (b - a);
  }

  lemma {:induction false} CodesCard(s: string)
    requires Distinct(s)
    ensures |Codes(s)| == |s|
  {
    if |s| > 0 {
      var p := s[..|s| - 1];
      CodesCard(p);
      assert Codes(s) == Codes(p) + {Index(s[|s| - 1])};
      assert Index(s[|s| - 1]) !in Codes(p);
    }
  }

  /** Pigeonhole on the alphabet. */
  lemma DistinctLettersBound(s: string)
    requires AllAllowed(s) && Distinct(s)
    ensures |s| <= 26
    ensures |s| == 26 ==> forall c :: IsAllowedCharacter(c) ==> c in s
  {
    CodesInRange(s);
    if |s| == 26 {
      forall c | IsAllowedCharacter(c)
        ensures c in s
      {
        FullAlphabet(s, c);
      }
    }
  }

  lemma CodesInRange(s: string)
    requires AllAllowed(s) && Distinct(s)
    ensures Codes(s) <= Range(26) && |Codes(s)| == |s| && |s| <= 26
  {
    CodesCard(s);
    RangeCard(26);
    RangeMembers(26);
    SubsetCard(Codes(s), Range(26));
  }

  /** Twenty-six distinct letters contain every letter. */
  lemma FullAlphabet(s: string, c: char)
    requires AllAllowed(s) && Distinct(s) && |s| == 26 && IsAllowedCharacter(c)
    ensures c in s
  {
    if c !in s {
      var x := Index(c);
      CodesInRange(s);
      RangeCard(26);
      RangeMembers(26);
      forall y | y in Codes(s)
        ensures y in Range(26) - {x}
      {
        var i :| 0 <= i < |s| && y == Index(s[i]);
        IndexInjective(s[i], c);
      }
      SubsetCard(Codes(s), Range(26) - {x});
      RemoveCard(Range(26), x);
    }
  }

  lemma RemoveCard(a: set<int>, x: int)
    requires x in a
    ensures |a - {x}| == |a| - 1
  {
    assert a == (a - {x}) + {x};
  }

  // ---------------------------------------------------------------------
  // Wiring tables (convertStringConfiguration)
  // ---------------------------------------------------------------------

  /** connections[0] (forward) and connections[1] (backward). */
  datatype Wiring = Wiring(forward: seq<int>, backward: seq<int>)

  /** Two 26-slot tables whose slots are symbols or the sentinel. */
  predicate WellFormedWiring(w: Wiring) {
    && |w.forward| == 26 && |w.backward| == 26
    && (forall k :: 0 <= k < 26 ==> -1 <= w.forward[k] < 26)
    && (forall k :: 0 <= k < 26 ==> -1 <= w.backward[k] < 26)
  }

  /** Every slot filled, and the two tables are inverse permutations. */
  predicate Bijective(w: Wiring) {
    && |w.forward| == 26 && |w.backward| == 26
    && (forall k :: 0 <= k < 26 ==> 0 <= w.forward[k] < 26 && w.backward[w.forward[k]] == k)
    && (forall k :: 0 <= k < 26 ==> 0 <= w.backward[k] < 26 && w.forward[w.backward[k]] == k)
  }

  datatype RotorError =
    | ForbiddenCharacter(index: nat)     // a wiring character outside A..Z
    | DuplicateCharacter(index: nat)     // a wiring target already taken
    | InvalidStartPosition(position: int)
    | InvalidNotch(notch: int)

  /** The wiring character at i is rejected: not a letter, or a letter seen before. */
  predicate Fault(conf: string, i: nat)
    requires i < |conf|
  {
    !IsAllowedCharacter(conf[i]) || conf[i] in conf[..i]
  }

  predicate FaultFree(conf: string, n: nat)
    requires n <= |conf|
  {
    forall j :: 0 <= j < n ==> !Fault(conf, j)
  }

  lemma FaultFreeMeans(conf: string, n: nat)
    requires n <= |conf|
    ensures FaultFree(conf, n) <==> AllAllowed(conf[..n]) && Distinct(conf[..n])
  {
    if FaultFree(conf, n) {
      forall i | 0 <= i < n
        ensures IsAllowedCharacter(conf[..n][i])
      {
        assert !Fault(conf, i);
      }
      forall i, j | 0 <= i < j < n
        ensures conf[..n][i] != conf[..n][j]
      {
        assert !Fault(conf, j);
        assert conf[..j][i] == conf[i];
      }
    }
    if AllAllowed(conf[..n]) && Distinct(conf[..n]) {
      forall j | 0 <= j < n
        ensures !Fault(conf, j)
      {
        assert conf[..n][j] == conf[j];
        forall i | 0 <= i < j
          ensures conf[..j][i] != conf[j]
        {
          assert conf[..n][i] == conf[i];
        }
      }
      assert FaultFree(conf, n);
    }
  }

  /** The index of the first rejected wiring character at or after k, or |conf|. */
  function FirstFault(conf: string, k: nat): (i: nat)
    requires k <= |conf|
    ensures k <= i <= |conf|
    ensures forall j :: k <= j < i ==> !Fault(conf, j)
    ensures i < |conf| ==> Fault(conf, i)
    decreases |conf| - k
  {
    if k == |conf| then k
    else if Fault(conf, k) then k
    else FirstFault(conf, k + 1)
  }

  lemma FirstFaultAt(conf: string, i: nat)
    requires i <= |conf| && FaultFree(conf, i)
    requires i < |conf| ==> Fault(conf, i)
    ensures FirstFault(conf, 0) == i
  {
    var f := FirstFault(conf, 0);
  }

  /** The first index below n holding c, or -1. */
  function IndexOf(s: string, c: char, n: nat): (i: int)
    requires n <= |s|
    ensures -1 <= i < n
    ensures 0 <= i ==> s[i] == c && c !in s[..i]
    ensures i < 0 <==> c !in s[..n]
    decreases n
  {
    if n == 0 then -1
    else
      var k := IndexOf(s, c, n - 1);
      assert s[..n] == s[..n - 1] + [s[n - 1]];
      if 0 <= k then k
      else if s[n - 1] == c then n - 1
      else -1
  }

  /**
   * The forward table after the first n wiring characters: slot
   * (i + ring) mod 26 holds (letter(i) + ring) mod 26, other slots the sentinel.
   */
  function ForwardTable(conf: string, ring: int, n: nat): (t: seq<int>)
    requires 0 <= ring < 26 && n <= |conf| && n <= 26
    requires AllAllowed(conf[..n])
  {
    seq(26, j requires 0 <= j < 26 =>
      var i := SubMod(j, ring);
      if i < n then (assert conf[..n][i] == conf[i]; AddMod(Index(conf[i]), ring)) else Unfilled)
  }

  /**
   * The backward table after the first n wiring characters: slot
   * (letter + ring) mod 26 holds (i + ring) mod 26 where i is where the
   * letter occurs, other slots the sentinel.
   */
  function BackwardTable(conf: string, ring: int, n: nat): (t: seq<int>)
    requires 0 <= ring < 26 && n <= |conf| && n <= 26
  {
    seq(26, p requires 0 <= p < 26 =>
      var i := IndexOf(conf, Letter(SubMod(p, ring)), n);
      if i < 0 then Unfilled else AddMod(i, ring))
  }

  /**
   * The tables convertStringConfiguration returns, or the error it returns,
   * stated without its loop: the first character that is not a letter or
   * repeats an earlier one decides the error.
   */
  function ConvertWiring(conf: string, ringSetting: int): (r: Result<Wiring, RotorError>)
    requires 0 <= ringSetting < 26
    ensures r.Ok? ==> |conf| <= 26 && WellFormedWiring(r.value)
  {
    var k := FirstFault(conf, 0);
    if k < |conf| then
      Err(if IsAllowedCharacter(conf[k]) then DuplicateCharacter(k) else ForbiddenCharacter(k))
    else
      FaultFreeMeans(conf, |conf|);
      assert conf[..|conf|] == conf;
      DistinctLettersBound(conf);
      Ok(Wiring(ForwardTable(conf, ringSetting, |conf|), BackwardTable(conf, ringSetting, |conf|)))
  }

  lemma ForwardTableStep(conf: string, ring: int, i: nat)
    requires 0 <= ring < 26 && i < |conf| && i < 26
    requires AllAllowed(conf[..i + 1])
    ensures AllAllowed(conf[..i])
    ensures ForwardTable(conf, ring, i + 1)
         == ForwardTable(conf, ring, i)[AddMod(i, ring) := AddMod(Index(conf[i]), ring)]
  {
    assert forall k :: 0 <= k < i ==> conf[..i][k] == conf[..i + 1][k];
    assert conf[..i + 1][i] == conf[i];
  }

  lemma BackwardTableStep(conf: string, ring: int, i: nat)
    requires 0 <= ring < 26 && i < |conf| && i < 26
    requires conf[i] !in conf[..i] && IsAllowedCharacter(conf[i])
    ensures BackwardTable(conf, ring, i + 1)
         == BackwardTable(conf, ring, i)[AddMod(Index(conf[i]), ring) := AddMod(i, ring)]
  {
    var a := BackwardTable(conf, ring, i + 1);
    var b := BackwardTable(conf, ring, i)[AddMod(Index(conf[i]), ring) := AddMod(i, ring)];
    forall p | 0 <= p < 26
      ensures a[p] == b[p]
    {
      var c := Letter(SubMod(p, ring));
      if p == AddMod(Index(conf[i]), ring) {
        assert c == conf[i];
      } else {
        assert c != conf[i];
      }
    }
  }

  /** The backward slot of a letter is filled exactly when the letter occurred before. */
  lemma SlotFilled(conf: string, ring: int, i: nat)
    requires 0 <= ring < 26 && i < |conf| && i <= 26 && IsAllowedCharacter(conf[i])
    ensures BackwardTable(conf, ring, i)[AddMod(Index(conf[i]), ring)] != Unfilled <==> conf[i] in conf[..i]
  {
    var p := AddMod(Index(conf[i]), ring);
    assert Letter(SubMod(p, ring)) == conf[i];
  }

  /** After 26 distinct letters every further letter repeats one of them. */
  lemma FullAfter26(conf: string)
    requires |conf| > 26 && FaultFree(conf, 26) && IsAllowedCharacter(conf[26])
    ensures conf[26] in conf[..26]
  {
    FaultFreeMeans(conf, 26);
    FullAlphabet(conf[..26], conf[26]);
  }

  lemma FaultFreeStep(conf: string, i: nat)
    requires i < |conf| && FaultFree(conf, i) && AllAllowed(conf[..i])
    requires IsAllowedCharacter(conf[i]) && conf[i] !in conf[..i]
    ensures FaultFree(conf, i + 1) && AllAllowed(conf[..i + 1])
  {
    assert conf[..i + 1] == conf[..i] + [conf[i]];
  }

  /** emptyConnections: two 26-slot tables, every slot the sentinel. */
  method EmptyConnections() returns (forward: array<int>, backward: array<int>)
    ensures fresh(forward) && fresh(backward) && forward != backward
    ensures forward.Length == 26 && backward.Length == 26
    ensures forall k :: 0 <= k < 26 ==> forward[k] == Unfilled && backward[k] == Unfilled
  {
    forward := new int[26];
    backward := new int[26];
    for j := 0 to 26
      invariant forall k :: 0 <= k < j ==> forward[k] == Unfilled && backward[k] == Unfilled
    {
      forward[j] := Unfilled;
      backward[j] := Unfilled;
    }
  }

  /**
   * convertStringConfiguration: fills the two tables in place, one wiring
   * character at a time, rejecting a non-letter and a target slot of the
   * backward table that is already filled.
   */
  method ConvertStringConfiguration(conf: string, ringSetting: int) returns (r: Result<Wiring, RotorError>)
    requires 0 <= ringSetting < 26
    ensures r == ConvertWiring(conf, ringSetting)
  {
    var forward, backward := EmptyConnections();
    assert forward[..] == ForwardTable(conf, ringSetting, 0);
    assert backward[..] == BackwardTable(conf, ringSetting, 0);
    for i := 0 to |conf|
      invariant i <= 26
      invariant FaultFree(conf, i)
      invariant AllAllowed(conf[..i])
      invariant forward[..] == ForwardTable(conf, ringSetting, i)
      invariant backward[..] == BackwardTable(conf, ringSetting, i)
    {
      var c := conf[i];
      if !IsAllowedCharacter(c) {
        FirstFaultAt(conf, i);
        return Err(ForbiddenCharacter(i));
      }
      var j := i + ringSetting;
      if j > 25 {
        j := j - 26;
      }
      var position := Index(c) + ringSetting;
      if position > 25 {
        position := position - 26;
      }
      forward[j] := position;
      SlotFilled(conf, ringSetting, i);
      if i == 26 {
        FullAfter26(conf);
      }
      assert backward[position] == backward[..][position];
      if backward[position] != Unfilled {
        FirstFaultAt(conf, i);
        return Err(DuplicateCharacter(i));
      }
      backward[position] := j;
      FaultFreeStep(conf, i);
      ForwardTableStep(conf, ringSetting, i);
      BackwardTableStep(conf, ringSetting, i);
    }
    FirstFaultAt(conf, |conf|);
    assert conf[..|conf|] == conf;
    return Ok(Wiring(forward[..], backward[..]));
  }

  // ---------------------------------------------------------------------
  // What convertStringConfiguration promises
  // ---------------------------------------------------------------------

  /** A wiring is accepted exactly when it is a string of distinct letters. */
  lemma WiringAccepted(conf: string, ring: int)
    requires 0 <= ring < 26
    ensures ConvertWiring(conf, ring).Ok? <==> AllAllowed(conf) && Distinct(conf)
  {
    FaultFreeMeans(conf, |conf|);
    assert conf[..|conf|] == conf;
    if FaultFree(conf, |conf|) {
      FirstFaultAt(conf, |conf|);
    }
  }

  /**
   * The error names the first offending character: a non-letter, or a letter
   * whose target slot an earlier character already filled.
   */
  lemma WiringRejected(conf: string, ring: int)
    requires 0 <= ring < 26
    ensures match ConvertWiring(conf, ring)
      case Ok(_) => true
      case Err(ForbiddenCharacter(k)) =>
        k < |conf| && !IsAllowedCharacter(conf[k]) && AllAllowed(conf[..k]) && Distinct(conf[..k])
      case Err(DuplicateCharacter(k)) =>
        k < |conf| && IsAllowedCharacter(conf[k]) && conf[k] in conf[..k]
        && AllAllowed(conf[..k]) && Distinct(conf[..k])
      case Err(_) => false
  {
    var k := FirstFault(conf, 0);
    if k < |conf| {
      FaultFreeMeans(conf, k);
    }
  }

  /** Longer than 26 characters: the 27th character at the latest is rejected. */
  lemma LongWiringRejected(conf: string, ring: int)
    requires 0 <= ring < 26 && |conf| > 26
    ensures ConvertWiring(conf, ring).Err?
    ensures ConvertWiring(conf, ring).error.index <= 26
  {
    var k := FirstFault(conf, 0);
    if k > 26 {
      assert FaultFree(conf, 27);
      FaultFreeMeans(conf, 27);
      DistinctLettersBound(conf[..27]);
      assert false;
    }
  }

  /** A full 26-letter permutation gives two filled tables that invert each other. */
  lemma WiringInverse(conf: string, ring: int)
    requires 0 <= ring < 26 && |conf| == 26 && ConvertWiring(conf, ring).Ok?
    ensures Bijective(ConvertWiring(conf, ring).value)
  {
    var w := ConvertWiring(conf, ring).value;
    forall k | 0 <= k < 26
      ensures 0 <= w.forward[k] < 26 && w.backward[w.forward[k]] == k
    {
      ForwardInverse(conf, ring, k);
    }
    forall p | 0 <= p < 26
      ensures 0 <= w.backward[p] < 26 && w.forward[w.backward[p]] == p
    {
      BackwardInverse(conf, ring, p);
    }
  }

  lemma ForwardInverse(conf: string, ring: int, k: int)
    requires 0 <= ring < 26 && |conf| == 26 && ConvertWiring(conf, ring).Ok? && 0 <= k < 26
    ensures 0 <= ConvertWiring(conf, ring).value.forward[k] < 26
    ensures ConvertWiring(conf, ring).value.backward[ConvertWiring(conf, ring).value.forward[k]] == k
  {
    var w := ConvertWiring(conf, ring).value;
    WiringAccepted(conf, ring);
    assert conf[..26] == conf;
    var i := SubMod(k, ring);
    var p := w.forward[k];
    assert p == AddMod(Index(conf[i]), ring);
    assert Letter(SubMod(p, ring)) == conf[i];
    var i' := IndexOf(conf, conf[i], 26);
    assert conf[..26][i] == conf[i];
    assert i' == i;
  }

  lemma BackwardInverse(conf: string, ring: int, p: int)
    requires 0 <= ring < 26 && |conf| == 26 && ConvertWiring(conf, ring).Ok? && 0 <= p < 26
    ensures 0 <= ConvertWiring(conf, ring).value.backward[p] < 26
    ensures ConvertWiring(conf, ring).value.forward[ConvertWiring(conf, ring).value.backward[p]] == p
  {
    var w := ConvertWiring(conf, ring).value;
    var c := Letter(SubMod(p, ring));
    assert 0 <= IndexOf(conf, c, 26) by {
      WiringAccepted(conf, ring);
      FullAlphabet(conf, c);
      assert conf[..26] == conf;
    }
    var i := IndexOf(conf, c, 26);
    assert w.backward[p] == AddMod(i, ring);
    ShiftBack(i, ring);
    assert w.forward[AddMod(i, ring)] == AddMod(Index(c), ring);
    ShiftBack(p, ring);
  }

  /** Undoing the ring shift. */
  lemma ShiftBack(x: int, ring: int)
    requires 0 <= x < 26 && 0 <= ring < 26
    ensures SubMod(AddMod(x, ring), ring) == x && AddMod(SubMod(x, ring), ring) == x
  {
  }

  /** The ring setting shifts slot and value alike. */
  lemma WiringRingShift(conf: string, ring: int)
    requires 0 <= ring < 26 && ConvertWiring(conf, ring).Ok?
    ensures forall i :: 0 <= i < |conf| ==>
      && ConvertWiring(conf, ring).value.forward[(i + ring) % 26] == (Index(conf[i]) + ring) % 26
      && ConvertWiring(conf, ring).value.backward[(Index(conf[i]) + ring) % 26] == (i + ring) % 26
  {
    var w := ConvertWiring(conf, ring).value;
    WiringAccepted(conf, ring);
    assert conf[..|conf|] == conf;
    forall i | 0 <= i < |conf|
      ensures w.forward[(i + ring) % 26] == (Index(conf[i]) + ring) % 26
      ensures w.backward[(Index(conf[i]) + ring) % 26] == (i + ring) % 26
    {
      assert SubMod(AddMod(i, ring), ring) == i;
      var p := AddMod(Index(conf[i]), ring);
      assert Letter(SubMod(p, ring)) == conf[i];
      assert conf[..|conf|][i] == conf[i];
      assert IndexOf(conf, conf[i], |conf|) == i;
    }
  }

  /** A wiring shorter than 26 letters leaves the sentinel in the slot after its last. */
  lemma ShortWiringUnfilled(conf: string, ring: int)
    requires 0 <= ring < 26 && |conf| < 26 && ConvertWiring(conf, ring).Ok?
    ensures ConvertWiring(conf, ring).value.forward[(|conf| + ring) % 26] == Unfilled
  {
    assert SubMod(AddMod(|conf|, ring), ring) == |conf|;
  }

  /**
   * Character i of the wiring, a letter, sends slot (i + ring) mod 26 to
   * (letter + ring) mod 26 in the forward table, and back in the backward table.
   */
  predicate Tabulates(conf: string, ring: int, forward: seq<int>, backward: seq<int>)
    requires 0 <= ring < 26 && |conf| == 26 && |forward| == 26 && |backward| == 26
  {
    forall i :: 0 <= i < 26 ==>
      && IsAllowedCharacter(conf[i])
      && forward[AddMod(i, ring)] == AddMod(Index(conf[i]), ring)
      && backward[AddMod(Index(conf[i]), ring)] == AddMod(i, ring)
  }

  /** Tables that a 26-character wiring tabulates are exactly what it converts to. */
  lemma WiringFromTables(conf: string, ring: int, forward: seq<int>, backward: seq<int>)
    requires 0 <= ring < 26 && |conf| == 26 && |forward| == 26 && |backward| == 26
    requires Tabulates(conf, ring, forward, backward)
    ensures ConvertWiring(conf, ring) == Ok(Wiring(forward, backward))
  {
    TablesDistinct(conf, ring, forward, backward);
    WiringAccepted(conf, ring);
    var w := ConvertWiring(conf, ring).value;
    forall k | 0 <= k < 26
      ensures w.forward[k] == forward[k]
    {
      TableSlot(conf, ring, forward, backward, k);
    }
    forall p | 0 <= p < 26
      ensures w.backward[p] == backward[p]
    {
      TableBackSlot(conf, ring, forward, backward, p);
    }
    assert w.forward == forward && w.backward == backward;
  }

  lemma TablesDistinct(conf: string, ring: int, forward: seq<int>, backward: seq<int>)
    requires 0 <= ring < 26 && |conf| == 26 && |forward| == 26 && |backward| == 26
    requires Tabulates(conf, ring, forward, backward)
    ensures AllAllowed(conf) && Distinct(conf)
  {
    forall i, j | 0 <= i < j < 26
      ensures conf[i] != conf[j]
    {
      IndexInjective(conf[i], conf[j]);
      ShiftBack(i, ring);
      ShiftBack(j, ring);
    }
  }

  lemma TableSlot(conf: string, ring: int, forward: seq<int>, backward: seq<int>, k: int)
    requires 0 <= ring < 26 && |conf| == 26 && |forward| == 26 && |backward| == 26 && 0 <= k < 26
    requires Tabulates(conf, ring, forward, backward) && ConvertWiring(conf, ring).Ok?
    ensures ConvertWiring(conf, ring).value.forward[k] == forward[k]
  {
    ShiftBack(k, ring);
    assert conf[..26] == conf;
  }

  lemma TableBackSlot(conf: string, ring: int, forward: seq<int>, backward: seq<int>, p: int)
    requires 0 <= ring < 26 && |conf| == 26 && |forward| == 26 && |backward| == 26 && 0 <= p < 26
    requires Tabulates(conf, ring, forward, backward) && AllAllowed(conf) && Distinct(conf)
    ensures ConvertWiring(conf, ring).Ok?
    ensures ConvertWiring(conf, ring).value.backward[p] == backward[p]
  {
    WiringAccepted(conf, ring);
    var c := Letter(SubMod(p, ring));
    FullAlphabet(conf, c);
    assert conf[..26] == conf;
    var i := IndexOf(conf, c, 26);
    LetterOfIndex(c);
    ShiftBack(p, ring);
    assert AddMod(Index(conf[i]), ring) == p;
  }

  // ---------------------------------------------------------------------
  // A rotor's state as a value: traverse, isNotchEngaged, cycle
  // ---------------------------------------------------------------------

  /** The input of newRotor; State returns one with only name, position and ring setting. */
  datatype RotorConfiguration = RotorConfiguration(
    name: string, configuration: string, position: int, ringSetting: int, notches: seq<int>)

  /** What decides a rotor's behaviour at one instant: its tables, position and notch set. */
  datatype RotorModel = RotorModel(connections: Wiring, position: int, notches: set<int>)

  predicate ValidModel(m: RotorModel) {
    && WellFormedWiring(m.connections)
    && 0 <= m.position < 26
    && (forall n :: n in m.notches ==> 0 <= n < 26)
  }

  /**
   * traverse: enter the wiring frame at input + position, look the slot up in
   * the forward or backward table, and leave the frame by subtracting the
   * position again.
   */
  function Traverse(m: RotorModel, input: int, forwards: bool): (r: int)
    requires ValidModel(m) && 0 <= input < 26
    ensures 0 <= r < 26
    ensures var table := if forwards then m.connections.forward else m.connections.backward;
      var slot := table[(input + m.position) % 26];
      && (0 <= slot ==> r == (slot - m.position) % 26)
      && (slot == Unfilled ==> r == 25 - m.position)
  {
    var offsetPosition := if input + m.position > 25 then input + m.position - 26 else input + m.position;
    var table := if forwards then m.connections.forward else m.connections.backward;
    var output := table[offsetPosition] - m.position;
    if output < 0 then output + 26 else output
  }

  /** Forward then backward traversal at one position is the identity, and vice versa. */
  lemma TraverseRoundTrip(m: RotorModel, x: int)
    requires ValidModel(m) && Bijective(m.connections) && 0 <= x < 26
    ensures Traverse(m, Traverse(m, x, true), false) == x
    ensures Traverse(m, Traverse(m, x, false), true) == x
  {
    var w := m.connections;
    var o := AddMod(x, m.position);
    var y := Traverse(m, x, true);
    assert y == SubMod(w.forward[o], m.position);
    assert AddMod(y, m.position) == w.forward[o];
    var z := Traverse(m, x, false);
    assert z == SubMod(w.backward[o], m.position);
    assert AddMod(z, m.position) == w.backward[o];
  }

  /** isNotchEngaged: the current position is one of the notches. */
  predicate IsNotchEngaged(m: RotorModel) {
    m.position in m.notches
  }

  /**
   * On a rotor built by newRotor, isNotchEngaged holds exactly when the
   * position is one of the configured notches, whatever order or repeats
   * the notch list has.
   */
  lemma NotchEngagedBuilt(conf: RotorConfiguration)
    requires 0 <= conf.ringSetting < 26 && RotorOf(conf).Ok?
    ensures IsNotchEngaged(RotorOf(conf).value) <==> conf.position in conf.notches
    ensures IsNotchEngaged(Cycled(RotorOf(conf).value)) <==> (conf.position + 1) % 26 in conf.notches
  {
  }

  /** cycle: one step on, 25 wrapping to 0. */
  function Cycled(m: RotorModel): (r: RotorModel)
    ensures ValidModel(m) ==> ValidModel(r)
  {
    m.(position := (m.position + 1) % 26)
  }

  // ---------------------------------------------------------------------
  // newRotor
  // ---------------------------------------------------------------------

  /** The index of the first notch at or after k outside 0..25, or |notches|. */
  function FirstBadNotch(notches: seq<int>, k: nat): (i: nat)
    requires k <= |notches|
    ensures k <= i <= |notches|
    ensures forall j :: k <= j < i ==> 0 <= notches[j] < 26
    ensures i < |notches| ==> !(0 <= notches[i] < 26)
    decreases |notches| - k
  {
    if k == |notches| then k
    else if notches[k] < 0 || notches[k] >= 26 then k
    else FirstBadNotch(notches, k + 1)
  }

  /**
   * What newRotor builds from a configuration: the wiring is converted
   * first, then the start position and then each notch are checked.
   */
  function RotorOf(conf: RotorConfiguration): (r: Result<RotorModel, RotorError>)
    requires 0 <= conf.ringSetting < 26
    ensures r.Ok? <==>
      && ConvertWiring(conf.configuration, conf.ringSetting).Ok?
      && 0 <= conf.position < 26
      && (forall n :: n in conf.notches ==> 0 <= n < 26)
    ensures r.Ok? ==>
      && ValidModel(r.value)
      && r.value.connections == ConvertWiring(conf.configuration, conf.ringSetting).value
      && r.value.position == conf.position
      && (forall n :: n in r.value.notches <==> n in conf.notches)
    ensures ConvertWiring(conf.configuration, conf.ringSetting).Err? ==>
      r == Err(ConvertWiring(conf.configuration, conf.ringSetting).error)
    ensures ConvertWiring(conf.configuration, conf.ringSetting).Ok? && !(0 <= conf.position < 26) ==>
      r == Err(InvalidStartPosition(conf.position))
    ensures r.Err? && r.error.InvalidNotch? ==>
      r.error.notch in conf.notches && !(0 <= r.error.notch < 26)
    ensures && ConvertWiring(conf.configuration, conf.ringSetting).Ok? && 0 <= conf.position < 26
            && FirstBadNotch(conf.notches, 0) < |conf.notches| ==>
      r == Err(InvalidNotch(conf.notches[FirstBadNotch(conf.notches, 0)]))
  {
    match ConvertWiring(conf.configuration, conf.ringSetting)
    case Err(e) => Err(e)
    case Ok(w) =>
      if conf.position < 0 || conf.position >= 26 then Err(InvalidStartPosition(conf.position))
      else
        var k := FirstBadNotch(conf.notches, 0);
        if k < |conf.notches| then
          assert conf.notches[k] in conf.notches;
          Err(InvalidNotch(conf.notches[k]))
        else Ok(RotorModel(w, conf.position, set n | n in conf.notches))
  }

  /** Rotor: the source's object; only its position changes after construction. */
  class Rotor {
    const name: string
    const connections: Wiring
    var position: int
    const ringSetting: int
    const notches: set<int>

    ghost predicate Valid()
      reads this
    {
      ValidModel(Model()) && 0 <= ringSetting < 26
    }

    /** The rotor's tables, position and notches as a value. */
    function Model(): RotorModel
      reads this
    {
      RotorModel(connections, position, notches)
    }

    /** State: a configuration carrying only the name, position and ring setting. */
    function State(): (c: RotorConfiguration)
      reads this
      ensures c.name == name && c.position == position && c.ringSetting == ringSetting
      ensures c.configuration == [] && c.notches == []
      ensures Valid() ==> 0 <= c.position < 26 && 0 <= c.ringSetting < 26
    {
      RotorConfiguration(name, "", position, ringSetting, [])
    }

    constructor (name: string, connections: Wiring, position: int, ringSetting: int, notches: set<int>)
      ensures this.name == name && this.connections == connections && this.position == position
      ensures this.ringSetting == ringSetting && this.notches == notches
    {
      this.name := name;
      this.connections := connections;
      this.position := position;
      this.ringSetting := ringSetting;
      this.notches := notches;
    }

    /** cycle: the only mutator. */
    method Cycle()
      requires Valid()
      modifies this
      ensures Valid()
      ensures position == (old(position) + 1) % 26
      ensures Model() == Cycled(old(Model()))
    {
      position := (position + 1) % 26;
    }
  }

  /** newRotor: converts the wiring, checks the start position, collects the notches. */
  method NewRotor(conf: RotorConfiguration) returns (r: Result<Rotor, RotorError>)
    requires 0 <= conf.ringSetting < 26
    ensures r.Err? ==> RotorOf(conf) == Err(r.error)
    ensures r.Ok? ==> fresh(r.value) && r.value.Valid() && RotorOf(conf) == Ok(r.value.Model())
    ensures r.Ok? ==> r.value.State() == conf.(configuration := "", notches := [])
  {
    var connections := ConvertStringConfiguration(conf.configuration, conf.ringSetting);
    if connections.Err? {
      return Err(connections.error);
    }
    if conf.position < 0 || conf.position >= 26 {
      return Err(InvalidStartPosition(conf.position));
    }
    var notch: set<int> := {};
    for k := 0 to |conf.notches|
      invariant forall j :: 0 <= j < k ==> 0 <= conf.notches[j] < 26
      invariant notch == set n | n in conf.notches[..k]
    {
      var n := conf.notches[k];
      if n < 0 || n >= 26 {
        assert FirstBadNotch(conf.notches, 0) == k;
        return Err(InvalidNotch(n));
      }
      assert conf.notches[..k + 1] == conf.notches[..k] + [n];
      notch := notch + {n};
    }
    assert conf.notches[..|conf.notches|] == conf.notches;
    var rotor := new Rotor(conf.name, connections.value, conf.position, conf.ringSetting, notch);
    return Ok(rotor);
  }
}
