/**
 * The catalogue of wirings and notches the machine is assembled from, with
 * what the rest of the model needs to know about them: every wiring is a
 * permutation of the alphabet, so convertStringConfiguration accepts it at
 * every ring setting; every reflector pairs the letters off with no letter
 * left on its own; every notch is a valid position. A machine built from
 * catalogue parts is therefore reciprocal and never enciphers a letter to
 * itself.
 */
module Components {
  import opened Results
  import opened Rotors
  import Machine

  // ---------------------------------------------------------------------
  // The constants
  // ---------------------------------------------------------------------

  const RotorI: string := "EKMFLGDQVZNTOWYHXUSPAIBRCJ"
  const RotorII: string := "AJDKSIRUXBLHWTMCQGZNPYFVOE"
  const RotorIII: string := "BDFHJLCPRTXVZNYEIWGAKMUSQO"
  const RotorIV: string := "ESOVPZJAYQUIRHXLNFTGKDCMWB"
  const RotorV: string := "VZBRGITYUPSDNHLXAWMJQOFECK"
  const RotorVI: string := "JPGVOUMFYQBENHZRDKASXLICTW"
  const RotorVII: string := "NZJHGRCXMYSWBOUFAIVLPEKQDT"
  const RotorVIII: string := "FKQHTLXOCBJSPDZRAMEWNIUYGV"

  const NotchI := 16
  const NotchII := 4
  const NotchIII := 21
  const NotchIV := 9
  const NotchV := 25
  const NotchVIToVIIIA := 12
  const NotchVIToVIIIB := 25

  const ReflectorA: string := "EJMZALYXVBWFCRQUONTSPIKHGD"
  const ReflectorB: string := "YRUHQSLDPXNGOKMIEBFZCWVJAT"
  const ReflectorC: string := "FVPJIAOYEDRZXWGCTKUQSBNMHL"

  /** The eight rotor wirings, in catalogue order. */
  const RotorWirings: seq<string> := [RotorI, RotorII, RotorIII, RotorIV, RotorV, RotorVI, RotorVII, RotorVIII]

  /** The notches each rotor carries, as the constant names pair them with the wirings. */
  const RotorNotches: seq<seq<int>> := [[NotchI], [NotchII], [NotchIII], [NotchIV], [NotchV],
    [NotchVIToVIIIA, NotchVIToVIIIB], [NotchVIToVIIIA, NotchVIToVIIIB], [NotchVIToVIIIA, NotchVIToVIIIB]]

  const Reflectors: seq<string> := [ReflectorA, ReflectorB, ReflectorC]

  // ---------------------------------------------------------------------
  // The tables each wiring converts to at ring setting 0
  // ---------------------------------------------------------------------

  const RotorIForward: seq<int> := [4, 10, 12, 5, 11, 6, 3, 16, 21, 25, 13, 19, 14, 22, 24, 7, 23, 20, 18, 15, 0, 8, 1, 17, 2, 9]
  const RotorIBackward: seq<int> := [20, 22, 24, 6, 0, 3, 5, 15, 21, 25, 1, 4, 2, 10, 12, 19, 7, 23, 18, 11, 17, 8, 13, 16, 14, 9]

  const RotorIIForward: seq<int> := [0, 9, 3, 10, 18, 8, 17, 20, 23, 1, 11, 7, 22, 19, 12, 2, 16, 6, 25, 13, 15, 24, 5, 21, 14, 4]
  const RotorIIBackward: seq<int> := [0, 9, 15, 2, 25, 22, 17, 11, 5, 1, 3, 10, 14, 19, 24, 20, 16, 6, 4, 13, 7, 23, 12, 8, 21, 18]

  const RotorIIIForward: seq<int> := [1, 3, 5, 7, 9, 11, 2, 15, 17, 19, 23, 21, 25, 13, 24, 4, 8, 22, 6, 0, 10, 12, 20, 18, 16, 14]
  const RotorIIIBackward: seq<int> := [19, 0, 6, 1, 15, 2, 18, 3, 16, 4, 20, 5, 21, 13, 25, 7, 24, 8, 23, 9, 22, 11, 17, 10, 14, 12]

  const RotorIVForward: seq<int> := [4, 18, 14, 21, 15, 25, 9, 0, 24, 16, 20, 8, 17, 7, 23, 11, 13, 5, 19, 6, 10, 3, 2, 12, 22, 1]
  const RotorIVBackward: seq<int> := [7, 25, 22, 21, 0, 17, 19, 13, 11, 6, 20, 15, 23, 16, 2, 4, 9, 12, 1, 18, 10, 3, 24, 14, 8, 5]

  const RotorVForward: seq<int> := [21, 25, 1, 17, 6, 8, 19, 24, 20, 15, 18, 3, 13, 7, 11, 23, 0, 22, 12, 9, 16, 14, 5, 4, 2, 10]
  const RotorVBackward: seq<int> := [16, 2, 24, 11, 23, 22, 4, 13, 5, 19, 25, 14, 18, 12, 21, 9, 20, 3, 10, 6, 8, 0, 17, 15, 7, 1]

  const RotorVIForward: seq<int> := [9, 15, 6, 21, 14, 20, 12, 5, 24, 16, 1, 4, 13, 7, 25, 17, 3, 10, 0, 18, 23, 11, 8, 2, 19, 22]
  const RotorVIBackward: seq<int> := [18, 10, 23, 16, 11, 7, 2, 13, 22, 0, 17, 21, 6, 12, 4, 1, 9, 15, 19, 24, 5, 3, 25, 20, 8, 14]

  const RotorVIIForward: seq<int> := [13, 25, 9, 7, 6, 17, 2, 23, 12, 24, 18, 22, 1, 14, 20, 5, 0, 8, 21, 11, 15, 4, 10, 16, 3, 19]
  const RotorVIIBackward: seq<int> := [16, 12, 6, 24, 21, 15, 4, 3, 17, 2, 22, 19, 8, 0, 13, 20, 23, 5, 10, 25, 14, 18, 11, 7, 9, 1]

  const RotorVIIIForward: seq<int> := [5, 10, 16, 7, 19, 11, 23, 14, 2, 1, 9, 18, 15, 3, 25, 17, 0, 12, 4, 22, 13, 8, 20, 24, 6, 21]
  const RotorVIIIBackward: seq<int> := [16, 9, 8, 13, 18, 0, 24, 3, 21, 10, 1, 5, 17, 20, 7, 12, 2, 15, 11, 4, 22, 25, 19, 6, 23, 14]

  /** A reflector's backward table is its forward table. */
  const ReflectorATable: seq<int> := [4, 9, 12, 25, 0, 11, 24, 23, 21, 1, 22, 5, 2, 17, 16, 20, 14, 13, 19, 18, 15, 8, 10, 7, 6, 3]

  /** A reflector's backward table is its forward table. */
  const ReflectorBTable: seq<int> := [24, 17, 20, 7, 16, 18, 11, 3, 15, 23, 13, 6, 14, 10, 12, 8, 4, 1, 5, 25, 2, 22, 21, 9, 0, 19]

  /** A reflector's backward table is its forward table. */
  const ReflectorCTable: seq<int> := [5, 21, 15, 9, 8, 0, 14, 24, 4, 3, 17, 25, 23, 22, 6, 2, 19, 10, 20, 16, 18, 1, 13, 12, 7, 11]

  lemma RotorITables()
    ensures Tabulates(RotorI, 0, RotorIForward, RotorIBackward)
  {
    forall i | 0 <= i < 26
      ensures && IsAllowedCharacter(RotorI[i])
              && RotorIForward[AddMod(i, 0)] == AddMod(Index(RotorI[i]), 0)
              && RotorIBackward[AddMod(Index(RotorI[i]), 0)] == AddMod(i, 0)
    {
      assert RotorI[i] == Letter(RotorIForward[i]);
    }
  }

  lemma RotorIConverts()
    ensures ConvertWiring(RotorI, 0) == Ok(Wiring(RotorIForward, RotorIBackward))
  {
    RotorITables();
    WiringFromTables(RotorI, 0, RotorIForward, RotorIBackward);
  }

  lemma RotorIITables()
    ensures Tabulates(RotorII, 0, RotorIIForward, RotorIIBackward)
  {
    forall i | 0 <= i < 26
      ensures && IsAllowedCharacter(RotorII[i])
              && RotorIIForward[AddMod(i, 0)] == AddMod(Index(RotorII[i]), 0)
              && RotorIIBackward[AddMod(Index(RotorII[i]), 0)] == AddMod(i, 0)
    {
      assert RotorII[i] == Letter(RotorIIForward[i]);
    }
  }

  lemma RotorIIConverts()
    ensures ConvertWiring(RotorII, 0) == Ok(Wiring(RotorIIForward, RotorIIBackward))
  {
    RotorIITables();
    WiringFromTables(RotorII, 0, RotorIIForward, RotorIIBackward);
  }

  lemma RotorIIITables()
    ensures Tabulates(RotorIII, 0, RotorIIIForward, RotorIIIBackward)
  {
    forall i | 0 <= i < 26
      ensures && IsAllowedCharacter(RotorIII[i])
              && RotorIIIForward[AddMod(i, 0)] == AddMod(Index(RotorIII[i]), 0)
              && RotorIIIBackward[AddMod(Index(RotorIII[i]), 0)] == AddMod(i, 0)
    {
      assert RotorIII[i] == Letter(RotorIIIForward[i]);
    }
  }

  lemma RotorIIIConverts()
    ensures ConvertWiring(RotorIII, 0) == Ok(Wiring(RotorIIIForward, RotorIIIBackward))
  {
    RotorIIITables();
    WiringFromTables(RotorIII, 0, RotorIIIForward, RotorIIIBackward);
  }

  lemma RotorIVTables()
    ensures Tabulates(RotorIV, 0, RotorIVForward, RotorIVBackward)
  {
    forall i | 0 <= i < 26
      ensures && IsAllowedCharacter(RotorIV[i])
              && RotorIVForward[AddMod(i, 0)] == AddMod(Index(RotorIV[i]), 0)
              && RotorIVBackward[AddMod(Index(RotorIV[i]), 0)] == AddMod(i, 0)
    {
      assert RotorIV[i] == Letter(RotorIVForward[i]);
    }
  }

  lemma RotorIVConverts()
    ensures ConvertWiring(RotorIV, 0) == Ok(Wiring(RotorIVForward, RotorIVBackward))
  {
    RotorIVTables();
    WiringFromTables(RotorIV, 0, RotorIVForward, RotorIVBackward);
  }

  lemma RotorVTables()
    ensures Tabulates(RotorV, 0, RotorVForward, RotorVBackward)
  {
    forall i | 0 <= i < 26
      ensures && IsAllowedCharacter(RotorV[i])
              && RotorVForward[AddMod(i, 0)] == AddMod(Index(RotorV[i]), 0)
              && RotorVBackward[AddMod(Index(RotorV[i]), 0)] == AddMod(i, 0)
    {
      assert RotorV[i] == Letter(RotorVForward[i]);
    }
  }

  lemma RotorVConverts()
    ensures ConvertWiring(RotorV, 0) == Ok(Wiring(RotorVForward, RotorVBackward))
  {
    RotorVTables();
    WiringFromTables(RotorV, 0, RotorVForward, RotorVBackward);
  }

  lemma RotorVITables()
    ensures Tabulates(RotorVI, 0, RotorVIForward, RotorVIBackward)
  {
    forall i | 0 <= i < 26
      ensures && IsAllowedCharacter(RotorVI[i])
              && RotorVIForward[AddMod(i, 0)] == AddMod(Index(RotorVI[i]), 0)
              && RotorVIBackward[AddMod(Index(RotorVI[i]), 0)] == AddMod(i, 0)
    {
      assert RotorVI[i] == Letter(RotorVIForward[i]);
    }
  }

  lemma RotorVIConverts()
    ensures ConvertWiring(RotorVI, 0) == Ok(Wiring(RotorVIForward, RotorVIBackward))
  {
    RotorVITables();
    WiringFromTables(RotorVI, 0, RotorVIForward, RotorVIBackward);
  }

  lemma RotorVIITables()
    ensures Tabulates(RotorVII, 0, RotorVIIForward, RotorVIIBackward)
  {
    forall i | 0 <= i < 26
      ensures && IsAllowedCharacter(RotorVII[i])
              && RotorVIIForward[AddMod(i, 0)] == AddMod(Index(RotorVII[i]), 0)
              && RotorVIIBackward[AddMod(Index(RotorVII[i]), 0)] == AddMod(i, 0)
    {
      assert RotorVII[i] == Letter(RotorVIIForward[i]);
    }
  }

  lemma RotorVIIConverts()
    ensures ConvertWiring(RotorVII, 0) == Ok(Wiring(RotorVIIForward, RotorVIIBackward))
  {
    RotorVIITables();
    WiringFromTables(RotorVII, 0, RotorVIIForward, RotorVIIBackward);
  }

  lemma RotorVIIITables()
    ensures Tabulates(RotorVIII, 0, RotorVIIIForward, RotorVIIIBackward)
  {
    forall i | 0 <= i < 26
      ensures && IsAllowedCharacter(RotorVIII[i])
              && RotorVIIIForward[AddMod(i, 0)] == AddMod(Index(RotorVIII[i]), 0)
              && RotorVIIIBackward[AddMod(Index(RotorVIII[i]), 0)] == AddMod(i, 0)
    {
      assert RotorVIII[i] == Letter(RotorVIIIForward[i]);
    }
  }

  lemma RotorVIIIConverts()
    ensures ConvertWiring(RotorVIII, 0) == Ok(Wiring(RotorVIIIForward, RotorVIIIBackward))
  {
    RotorVIIITables();
    WiringFromTables(RotorVIII, 0, RotorVIIIForward, RotorVIIIBackward);
  }

  lemma ReflectorATables()
    ensures Tabulates(ReflectorA, 0, ReflectorATable, ReflectorATable)
  {
    forall i | 0 <= i < 26
      ensures && IsAllowedCharacter(ReflectorA[i])
              && ReflectorATable[AddMod(i, 0)] == AddMod(Index(ReflectorA[i]), 0)
              && ReflectorATable[AddMod(Index(ReflectorA[i]), 0)] == AddMod(i, 0)
    {
      assert ReflectorA[i] == Letter(ReflectorATable[i]);
    }
  }

  lemma ReflectorAConverts()
    ensures ConvertWiring(ReflectorA, 0) == Ok(Wiring(ReflectorATable, ReflectorATable))
  {
    ReflectorATables();
    WiringFromTables(ReflectorA, 0, ReflectorATable, ReflectorATable);
  }

  lemma ReflectorAMoves()
    ensures forall k :: 0 <= k < 26 ==> ReflectorATable[k] != k
  {
  }

  lemma ReflectorAReflects()
    ensures ConvertWiring(ReflectorA, 0) == Ok(Wiring(ReflectorATable, ReflectorATable))
    ensures Machine.SelfInverse(Wiring(ReflectorATable, ReflectorATable)) && Machine.FixedPointFree(Wiring(ReflectorATable, ReflectorATable))
  {
    ReflectorAConverts();
    WiringInverse(ReflectorA, 0);
    ReflectorAMoves();
  }

  lemma ReflectorBTables()
    ensures Tabulates(ReflectorB, 0, ReflectorBTable, ReflectorBTable)
  {
    forall i | 0 <= i < 26
      ensures && IsAllowedCharacter(ReflectorB[i])
              && ReflectorBTable[AddMod(i, 0)] == AddMod(Index(ReflectorB[i]), 0)
              && ReflectorBTable[AddMod(Index(ReflectorB[i]), 0)] == AddMod(i, 0)
    {
      assert ReflectorB[i] == Letter(ReflectorBTable[i]);
    }
  }

  lemma ReflectorBConverts()
    ensures ConvertWiring(ReflectorB, 0) == Ok(Wiring(ReflectorBTable, ReflectorBTable))
  {
    ReflectorBTables();
    WiringFromTables(ReflectorB, 0, ReflectorBTable, ReflectorBTable);
  }

  lemma ReflectorBMoves()
    ensures forall k :: 0 <= k < 26 ==> ReflectorBTable[k] != k
  {
  }

  lemma ReflectorBReflects()
    ensures ConvertWiring(ReflectorB, 0) == Ok(Wiring(ReflectorBTable, ReflectorBTable))
    ensures Machine.SelfInverse(Wiring(ReflectorBTable, ReflectorBTable)) && Machine.FixedPointFree(Wiring(ReflectorBTable, ReflectorBTable))
  {
    ReflectorBConverts();
    WiringInverse(ReflectorB, 0);
    ReflectorBMoves();
  }

  lemma ReflectorCTables()
    ensures Tabulates(ReflectorC, 0, ReflectorCTable, ReflectorCTable)
  {
    forall i | 0 <= i < 26
      ensures && IsAllowedCharacter(ReflectorC[i])
              && ReflectorCTable[AddMod(i, 0)] == AddMod(Index(ReflectorC[i]), 0)
              && ReflectorCTable[AddMod(Index(ReflectorC[i]), 0)] == AddMod(i, 0)
    {
      assert ReflectorC[i] == Letter(ReflectorCTable[i]);
    }
  }

  lemma ReflectorCConverts()
    ensures ConvertWiring(ReflectorC, 0) == Ok(Wiring(ReflectorCTable, ReflectorCTable))
  {
    ReflectorCTables();
    WiringFromTables(ReflectorC, 0, ReflectorCTable, ReflectorCTable);
  }

  lemma ReflectorCMoves()
    ensures forall k :: 0 <= k < 26 ==> ReflectorCTable[k] != k
  {
  }

  lemma ReflectorCReflects()
    ensures ConvertWiring(ReflectorC, 0) == Ok(Wiring(ReflectorCTable, ReflectorCTable))
    ensures Machine.SelfInverse(Wiring(ReflectorCTable, ReflectorCTable)) && Machine.FixedPointFree(Wiring(ReflectorCTable, ReflectorCTable))
  {
    ReflectorCConverts();
    WiringInverse(ReflectorC, 0);
    ReflectorCMoves();
  }

  // ---------------------------------------------------------------------
  // What the catalogue guarantees
  // ---------------------------------------------------------------------

  /** Every rotor wiring is a permutation of the 26 letters. */
  lemma RotorWiringPermutation(i: nat)
    requires i < |RotorWirings|
    ensures |RotorWirings[i]| == 26 && AllAllowed(RotorWirings[i]) && Distinct(RotorWirings[i])
  {
    if i == 0 {
      RotorITables();
      TablesDistinct(RotorI, 0, RotorIForward, RotorIBackward);
    } else if i == 1 {
      RotorIITables();
      TablesDistinct(RotorII, 0, RotorIIForward, RotorIIBackward);
    } else if i == 2 {
      RotorIIITables();
      TablesDistinct(RotorIII, 0, RotorIIIForward, RotorIIIBackward);
    } else if i == 3 {
      RotorIVTables();
      TablesDistinct(RotorIV, 0, RotorIVForward, RotorIVBackward);
    } else if i == 4 {
      RotorVTables();
      TablesDistinct(RotorV, 0, RotorVForward, RotorVBackward);
    } else if i == 5 {
      RotorVITables();
      TablesDistinct(RotorVI, 0, RotorVIForward, RotorVIBackward);
    } else if i == 6 {
      RotorVIITables();
      TablesDistinct(RotorVII, 0, RotorVIIForward, RotorVIIBackward);
    } else if i == 7 {
      RotorVIIITables();
      TablesDistinct(RotorVIII, 0, RotorVIIIForward, RotorVIIIBackward);
    }
  }

  /** So convertStringConfiguration accepts it at every ring setting, with full inverse tables. */
  lemma RotorWiringAccepted(i: nat, ring: int)
    requires i < |RotorWirings| && 0 <= ring < 26
    ensures ConvertWiring(RotorWirings[i], ring).Ok?
    ensures Bijective(ConvertWiring(RotorWirings[i], ring).value)
  {
    RotorWiringPermutation(i);
    WiringAccepted(RotorWirings[i], ring);
    WiringInverse(RotorWirings[i], ring);
  }

  /** Every notch of the catalogue is a rotor position. */
  lemma NotchesInRange(i: nat)
    requires i < |RotorNotches|
    ensures forall n :: n in RotorNotches[i] ==> 0 <= n < 26
  {
  }

  /**
   * newRotor accepts a catalogue rotor exactly when its start position is
   * in range, and the rotor it builds has full inverse tables and the
   * catalogue's notches.
   */
  lemma CatalogueRotor(i: nat, name: string, position: int, ring: int)
    requires i < |RotorWirings| && 0 <= ring < 26
    ensures var r := RotorOf(RotorConfiguration(name, RotorWirings[i], position, ring, RotorNotches[i]));
      && (r.Ok? <==> 0 <= position < 26)
      && (r.Ok? ==> Bijective(r.value.connections) && forall n :: n in r.value.notches <==> n in RotorNotches[i])
  {
    RotorWiringAccepted(i, ring);
    NotchesInRange(i);
  }

  /**
   * A table that is its own inverse and moves every slot: the wiring it
   * tabulates pairs each letter with a different one, both ways.
   */
  lemma PairsFromTable(w: string, t: seq<int>)
    requires |w| == 26 && |t| == 26 && Tabulates(w, 0, t, t)
    requires forall k :: 0 <= k < 26 ==> t[k] != k
    ensures forall j :: 0 <= j < 26 ==>
      0 <= Index(w[j]) < 26 && w[Index(w[j])] == Letter(j) && w[j] != Letter(j)
  {
    forall j | 0 <= j < 26
      ensures 0 <= Index(w[j]) < 26 && w[Index(w[j])] == Letter(j) && w[j] != Letter(j)
    {
      var k := Index(w[j]);
      assert t[j] == k;
      assert t[k] == j;
      assert Index(w[k]) == j;
      LetterOfIndex(w[k]);
      LetterOfIndex(w[j]);
    }
  }

  /** Every reflector wiring pairs each letter with a different one. */
  lemma ReflectorPairs(i: nat)
    requires i < |Reflectors|
    ensures |Reflectors[i]| == 26
    ensures forall j :: 0 <= j < 26 ==>
      && 0 <= Index(Reflectors[i][j]) < 26
      && Reflectors[i][Index(Reflectors[i][j])] == Letter(j)
      && Reflectors[i][j] != Letter(j)
  {
    if i == 0 {
      ReflectorATables();
      PairsFromTable(ReflectorA, ReflectorATable);
    } else if i == 1 {
      ReflectorBTables();
      PairsFromTable(ReflectorB, ReflectorBTable);
    } else if i == 2 {
      ReflectorCTables();
      PairsFromTable(ReflectorC, ReflectorCTable);
    }
  }

  /**
   * A reflector built from the catalogue (ring setting 0, as NewEnigma builds
   * it) has one table for both directions and sends no slot to itself.
   */
  lemma ReflectorTables(i: nat)
    requires i < |Reflectors|
    ensures ConvertWiring(Reflectors[i], 0).Ok?
    ensures Machine.SelfInverse(ConvertWiring(Reflectors[i], 0).value)
    ensures Machine.FixedPointFree(ConvertWiring(Reflectors[i], 0).value)
  {
    if i == 0 {
      ReflectorAReflects();
    } else if i == 1 {
      ReflectorBReflects();
    } else if i == 2 {
      ReflectorCReflects();
    }
  }
}
