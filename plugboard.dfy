/**
 * The plugboard (enigma/plugboard.go): validating index pairs into a
 * symmetric map, the lookup that swaps a plugged symbol, and the parser of
 * the textual form "AZ GH".
 *
 * The plugboard is never changed after it is built, so it is a value; the
 * two builders keep the source's loops, each proved equal to a fold that
 * states the same checks declaratively.
 */
module Plugboards {
  import opened Results
  import opened Rotors

  /** The limit on plug pairs, in newPlugboard and in parseStringPlugboard. */
  const MaxPlugs := 10

  datatype Plugboard = Plugboard(connections: map<int, int>)

  /** One case per rejecting branch of newPlugboard. */
  datatype PlugboardError =
    | TooManyPlugs(count: nat)
    | MalformedPair(pair: seq<int>)
    | SelfPair(pair: seq<int>)
    | InvalidSymbols(pair: seq<int>)
    | RepeatedSymbol(pair: seq<int>)

  // ---------------------------------------------------------------------
  // What a valid set of pairs is
  // ---------------------------------------------------------------------

  /** Two different symbols, both in 0..25. */
  predicate WellFormedPair(p: seq<int>) {
    |p| == 2 && p[0] != p[1] && 0 <= p[0] < 26 && 0 <= p[1] < 26
  }

  predicate Disjoint(p: seq<int>, q: seq<int>)
    requires |p| == 2 && |q| == 2
  {
    p[0] != q[0] && p[0] != q[1] && p[1] != q[0] && p[1] != q[1]
  }

  /** Every pair well formed and no symbol used by two pairs. */
  predicate ValidPairs(pairs: seq<seq<int>>) {
    && (forall k :: 0 <= k < |pairs| ==> WellFormedPair(pairs[k]))
    && (forall j, k :: 0 <= j < k < |pairs| ==> Disjoint(pairs[j], pairs[k]))
  }

  /** Every symbol mentioned by some pair. */
  function Symbols(pairs: seq<seq<int>>): set<int> {
    set k, j | 0 <= k < |pairs| && 0 <= j < |pairs[k]| :: pairs[k][j]
  }

  /** No pair mentions a symbol of `used`. */
  predicate Free(pairs: seq<seq<int>>, used: set<int>) {
    forall k, j :: 0 <= k < |pairs| && 0 <= j < |pairs[k]| ==> pairs[k][j] !in used
  }

  /** A symmetric matching on 0..25 without fixed points. */
  predicate Matching(conn: map<int, int>) {
    forall a :: a in conn ==> 0 <= a < 26 && conn[a] in conn && conn[conn[a]] == a && conn[a] != a
  }

  // ---------------------------------------------------------------------
  // newPlugboard
  // ---------------------------------------------------------------------

  /**
   * The checks newPlugboard makes on one pair, in its order, given the
   * symbols already in the map.
   */
  function PairFault(pair: seq<int>, used: set<int>): (f: Option<PlugboardError>)
    ensures f.None? <==> WellFormedPair(pair) && pair[0] !in used && pair[1] !in used
    ensures f.Some? ==> !f.value.TooManyPlugs? && f.value.pair == pair
    ensures f.Some? && f.value.MalformedPair? ==> |pair| != 2
    ensures f.Some? && f.value.SelfPair? ==> |pair| == 2 && pair[0] == pair[1]
    ensures f.Some? && f.value.InvalidSymbols? ==>
      |pair| == 2 && pair[0] != pair[1] && !(0 <= pair[0] < 26 && 0 <= pair[1] < 26)
    ensures f.Some? && f.value.RepeatedSymbol? ==>
      WellFormedPair(pair) && (pair[0] in used || pair[1] in used)
  {
    if |pair| != 2 then Some(MalformedPair(pair))
    else if pair[0] == pair[1] then Some(SelfPair(pair))
    else if pair[0] < 0 || pair[0] > 25 || pair[1] < 0 || pair[1] > 25 then Some(InvalidSymbols(pair))
    else if pair[0] in used || pair[1] in used then Some(RepeatedSymbol(pair))
    else None
  }

  /** The loop of newPlugboard from the map built so far. */
  function AddPairs(pairs: seq<seq<int>>, conn: map<int, int>): Result<map<int, int>, PlugboardError>
    decreases |pairs|
  {
    if |pairs| == 0 then Ok(conn)
    else
      match PairFault(pairs[0], conn.Keys)
      case Some(e) => Err(e)
      case None => AddPairs(pairs[1..], conn[pairs[0][0] := pairs[0][1]][pairs[0][1] := pairs[0][0]])
  }

  /** What newPlugboard returns: the count is checked before any pair. */
  function BuildPlugboard(pairs: seq<seq<int>>): Result<Plugboard, PlugboardError> {
    if |pairs| > MaxPlugs then Err(TooManyPlugs(|pairs|))
    else
      var r := AddPairs(pairs, map[]);
      if r.Err? then Err(r.error) else Ok(Plugboard(r.value))
  }

  /** newPlugboard: inserts both directions of each pair into the map. */
  method NewPlugboard(pairs: seq<seq<int>>) returns (r: Result<Plugboard, PlugboardError>)
    ensures r == BuildPlugboard(pairs)
  {
    var connections: map<int, int> := map[];
    if |pairs| > MaxPlugs {
      return Err(TooManyPlugs(|pairs|));
    }
    for i := 0 to |pairs|
      invariant AddPairs(pairs, map[]) == AddPairs(pairs[i..], connections)
    {
      var pair := pairs[i];
      assert pairs[i..][0] == pair && pairs[i..][1..] == pairs[i + 1..];
      if |pair| != 2 {
        return Err(MalformedPair(pair));
      }
      if pair[0] == pair[1] {
        return Err(SelfPair(pair));
      }
      if pair[0] < 0 || pair[0] > 25 || pair[1] < 0 || pair[1] > 25 {
        return Err(InvalidSymbols(pair));
      }
      var ok1 := pair[0] in connections;
      var ok2 := pair[1] in connections;
      if ok1 || ok2 {
        return Err(RepeatedSymbol(pair));
      }
      connections := connections[pair[0] := pair[1]];
      connections := connections[pair[1] := pair[0]];
    }
    return Ok(Plugboard(connections));
  }

  // ---------------------------------------------------------------------
  // What newPlugboard promises
  // ---------------------------------------------------------------------

  lemma SymbolsCons(pairs: seq<seq<int>>)
    requires |pairs| > 0 && |pairs[0]| == 2
    ensures Symbols(pairs) == {pairs[0][0], pairs[0][1]} + Symbols(pairs[1..])
  {
    var tail := pairs[1..];
    forall a | a in Symbols(pairs)
      ensures a in {pairs[0][0], pairs[0][1]} + Symbols(tail)
    {
      var k, j :| 0 <= k < |pairs| && 0 <= j < |pairs[k]| && pairs[k][j] == a;
      if k > 0 {
        assert tail[k - 1][j] == a;
      }
    }
    forall a | a in Symbols(tail)
      ensures a in Symbols(pairs)
    {
      var k, j :| 0 <= k < |tail| && 0 <= j < |tail[k]| && tail[k][j] == a;
      assert pairs[k + 1][j] == a;
    }
    assert pairs[0][0] == pairs[0][0] && pairs[0][1] in Symbols(pairs);
  }

  /** ValidPairs and Free unfold at the head pair. */
  lemma ValidFreeCons(pairs: seq<seq<int>>, used: set<int>)
    requires |pairs| > 0 && WellFormedPair(pairs[0])
    ensures ValidPairs(pairs) && Free(pairs, used) <==>
      && pairs[0][0] !in used && pairs[0][1] !in used
      && ValidPairs(pairs[1..]) && Free(pairs[1..], used + {pairs[0][0], pairs[0][1]})
  {
    var p, tail := pairs[0], pairs[1..];
    var used' := used + {p[0], p[1]};
    if ValidPairs(pairs) && Free(pairs, used) {
      assert p[0] == pairs[0][0] && p[1] == pairs[0][1];
      assert ValidPairs(tail) by {
        forall j, k | 0 <= j < k < |tail|
          ensures Disjoint(tail[j], tail[k])
        {
          assert tail[j] == pairs[j + 1] && tail[k] == pairs[k + 1];
        }
      }
      forall k, j | 0 <= k < |tail| && 0 <= j < |tail[k]|
        ensures tail[k][j] !in used'
      {
        assert tail[k] == pairs[k + 1];
        assert Disjoint(pairs[0], pairs[k + 1]);
      }
    }
    if && p[0] !in used && p[1] !in used && ValidPairs(tail) && Free(tail, used') {
      forall k | 0 <= k < |pairs|
        ensures WellFormedPair(pairs[k])
      {
        if k > 0 { assert pairs[k] == tail[k - 1]; }
      }
      forall j, k | 0 <= j < k < |pairs|
        ensures Disjoint(pairs[j], pairs[k])
      {
        assert pairs[k] == tail[k - 1];
        if j > 0 {
          assert pairs[j] == tail[j - 1];
        } else {
          assert tail[k - 1][0] !in used' && tail[k - 1][1] !in used';
        }
      }
      forall k, j | 0 <= k < |pairs| && 0 <= j < |pairs[k]|
        ensures pairs[k][j] !in used
      {
        if k > 0 { assert pairs[k][j] == tail[k - 1][j]; }
      }
    }
  }

  /** The fold accepts exactly the valid pairs that avoid the symbols already plugged. */
  lemma {:induction false} AddPairsAccepts(pairs: seq<seq<int>>, conn: map<int, int>)
    ensures AddPairs(pairs, conn).Ok? <==> ValidPairs(pairs) && Free(pairs, conn.Keys)
    decreases |pairs|
  {
    if |pairs| > 0 {
      var p := pairs[0];
      if PairFault(p, conn.Keys).None? {
        var conn' := conn[p[0] := p[1]][p[1] := p[0]];
        assert conn'.Keys == conn.Keys + {p[0], p[1]};
        AddPairsAccepts(pairs[1..], conn');
        ValidFreeCons(pairs, conn.Keys);
      } else {
        assert !(ValidPairs(pairs) && Free(pairs, conn.Keys)) by {
          if WellFormedPair(p) {
            assert p[0] in conn.Keys || p[1] in conn.Keys;
            assert pairs[0][0] == p[0] && pairs[0][1] == p[1];
          }
        }
      }
    }
  }

  /**
   * An accepted fold keeps the map a matching, adds exactly the listed
   * symbols and connects each pair both ways.
   */
  lemma AddPairsResult(pairs: seq<seq<int>>, conn: map<int, int>)
    requires Matching(conn) && AddPairs(pairs, conn).Ok?
    ensures ValidPairs(pairs)
    ensures var m := AddPairs(pairs, conn).value;
      && Matching(m)
      && m.Keys == conn.Keys + Symbols(pairs)
      && (forall a :: a in conn ==> m[a] == conn[a])
      && (forall k :: 0 <= k < |pairs| ==> m[pairs[k][0]] == pairs[k][1] && m[pairs[k][1]] == pairs[k][0])
  {
    AddPairsAccepts(pairs, conn);
    AddPairsExtends(pairs, conn);
    AddPairsConnects(pairs, conn);
  }

  /** An accepted fold keeps the map a matching and adds exactly the listed symbols. */
  lemma {:induction false} AddPairsExtends(pairs: seq<seq<int>>, conn: map<int, int>)
    requires Matching(conn) && AddPairs(pairs, conn).Ok?
    ensures var m := AddPairs(pairs, conn).value;
      && Matching(m)
      && m.Keys == conn.Keys + Symbols(pairs)
      && (forall a :: a in conn ==> m[a] == conn[a])
    decreases |pairs|
  {
    if |pairs| == 0 {
      assert Symbols(pairs) == {};
    } else {
      var p := pairs[0];
      PlugIn(conn, p);
      AddPairsExtends(pairs[1..], conn[p[0] := p[1]][p[1] := p[0]]);
      SymbolsCons(pairs);
    }
  }

  /** An accepted fold connects each pair both ways. */
  lemma {:induction false} AddPairsConnects(pairs: seq<seq<int>>, conn: map<int, int>)
    requires Matching(conn) && AddPairs(pairs, conn).Ok?
    ensures var m := AddPairs(pairs, conn).value;
      forall k :: 0 <= k < |pairs| ==>
        && |pairs[k]| == 2 && pairs[k][0] in m && pairs[k][1] in m
        && m[pairs[k][0]] == pairs[k][1] && m[pairs[k][1]] == pairs[k][0]
    decreases |pairs|
  {
    if |pairs| > 0 {
      var p := pairs[0];
      var conn' := conn[p[0] := p[1]][p[1] := p[0]];
      var tail := pairs[1..];
      PlugIn(conn, p);
      AddPairsConnects(tail, conn');
      AddPairsExtends(tail, conn');
      var m := AddPairs(pairs, conn).value;
      assert m == AddPairs(tail, conn').value;
      forall k | 0 <= k < |pairs|
        ensures |pairs[k]| == 2 && pairs[k][0] in m && pairs[k][1] in m
        ensures m[pairs[k][0]] == pairs[k][1] && m[pairs[k][1]] == pairs[k][0]
      {
        if k > 0 { assert pairs[k] == tail[k - 1]; }
      }
    }
  }

  /** Plugging one acceptable pair into a matching keeps it a matching. */
  lemma PlugIn(conn: map<int, int>, p: seq<int>)
    requires Matching(conn) && PairFault(p, conn.Keys).None?
    ensures var c := conn[p[0] := p[1]][p[1] := p[0]];
      && Matching(c)
      && c.Keys == conn.Keys + {p[0], p[1]}
      && (forall a :: a in conn ==> c[a] == conn[a])
      && c[p[0]] == p[1] && c[p[1]] == p[0]
  {
  }

  /**
   * A rejected fold fails on the first pair that is not acceptable given
   * the symbols before it.
   */
  lemma {:induction false} AddPairsFault(pairs: seq<seq<int>>, conn: map<int, int>)
    requires AddPairs(pairs, conn).Err?
    ensures exists k ::
      && 0 <= k < |pairs| && ValidPairs(pairs[..k]) && Free(pairs[..k], conn.Keys)
      && PairFault(pairs[k], conn.Keys + Symbols(pairs[..k])) == Some(AddPairs(pairs, conn).error)
    decreases |pairs|
  {
    var p := pairs[0];
    var e := AddPairs(pairs, conn).error;
    if PairFault(p, conn.Keys).Some? {
      assert pairs[..0] == [];
      assert Symbols(pairs[..0]) == {};
      assert conn.Keys + Symbols(pairs[..0]) == conn.Keys;
    } else {
      var conn' := conn[p[0] := p[1]][p[1] := p[0]];
      assert conn'.Keys == conn.Keys + {p[0], p[1]};
      var tail := pairs[1..];
      AddPairsFault(tail, conn');
      var k' :| 0 <= k' < |tail| && ValidPairs(tail[..k']) && Free(tail[..k'], conn'.Keys)
        && PairFault(tail[k'], conn'.Keys + Symbols(tail[..k'])) == Some(e);
      PairsPrefixCons(pairs, conn.Keys, k');
      assert pairs[k' + 1] == tail[k'];
    }
  }

  /** A clean prefix of the tail, behind an acceptable head pair, is a clean prefix of the pairs. */
  lemma PairsPrefixCons(pairs: seq<seq<int>>, used: set<int>, k': nat)
    requires k' + 1 < |pairs| && PairFault(pairs[0], used).None?
    requires var used' := used + {pairs[0][0], pairs[0][1]};
      ValidPairs(pairs[1..][..k']) && Free(pairs[1..][..k'], used')
    ensures ValidPairs(pairs[..k' + 1]) && Free(pairs[..k' + 1], used)
    ensures used + Symbols(pairs[..k' + 1]) == used + {pairs[0][0], pairs[0][1]} + Symbols(pairs[1..][..k'])
  {
    var prefix := pairs[..k' + 1];
    assert prefix[0] == pairs[0] && prefix[1..] == pairs[1..][..k'];
    ValidFreeCons(prefix, used);
    SymbolsCons(prefix);
  }

  /** newPlugboard succeeds on at most ten valid pairs, and on nothing else. */
  lemma PlugboardAccepted(pairs: seq<seq<int>>)
    ensures BuildPlugboard(pairs).Ok? <==> |pairs| <= MaxPlugs && ValidPairs(pairs)
  {
    AddPairsAccepts(pairs, map[]);
    assert Free(pairs, {});
  }

  /**
   * On success the map is symmetric without fixed points, its domain is
   * exactly the listed symbols and each pair is connected both ways.
   */
  lemma PlugboardShape(pairs: seq<seq<int>>)
    requires BuildPlugboard(pairs).Ok?
    ensures var conn := BuildPlugboard(pairs).value.connections;
      && ValidPairs(pairs)
      && Matching(conn)
      && (forall a, b :: a in conn && b in conn ==> (conn[a] == b <==> conn[b] == a))
      && conn.Keys == Symbols(pairs)
      && (forall k :: 0 <= k < |pairs| ==> conn[pairs[k][0]] == pairs[k][1] && conn[pairs[k][1]] == pairs[k][0])
  {
    PlugboardAccepted(pairs);
    AddPairsResult(pairs, map[]);
  }

  /**
   * On failure the error belongs to the first pair that is malformed, pairs a
   * symbol with itself, is out of range or reuses an earlier pair's symbol.
   */
  lemma PlugboardRejected(pairs: seq<seq<int>>)
    requires BuildPlugboard(pairs).Err?
    ensures var e := BuildPlugboard(pairs).error;
      || (|pairs| > MaxPlugs && e == TooManyPlugs(|pairs|))
      || (&& |pairs| <= MaxPlugs
          && exists k :: 0 <= k < |pairs| && ValidPairs(pairs[..k])
               && PairFault(pairs[k], Symbols(pairs[..k])) == Some(e))
  {
    if |pairs| <= MaxPlugs {
      AddPairsFault(pairs, map[]);
    }
  }

  // ---------------------------------------------------------------------
  // traverse
  // ---------------------------------------------------------------------

  /** traverse: the partner of a plugged symbol, otherwise the symbol itself. */
  function Traverse(p: Plugboard, input: int): (r: int)
    ensures Matching(p.connections) && 0 <= input < 26 ==> 0 <= r < 26
    ensures input !in p.connections ==> r == input
    ensures Matching(p.connections) && input in p.connections ==> r != input && r in p.connections
  {
    if input in p.connections then p.connections[input] else input
  }

  /** Plugging twice gives the symbol back. */
  lemma TraverseInvolution(p: Plugboard, x: int)
    requires Matching(p.connections)
    ensures Traverse(p, Traverse(p, x)) == x
  {
  }

  // ---------------------------------------------------------------------
  // parseStringPlugboard
  // ---------------------------------------------------------------------

  /** One case per rejecting branch of parseStringPlugboard. */
  datatype ParseError =
    | TooManyGroups(count: nat)
    | GroupLength(group: string)
    | SelfConnection(group: string)
    | InvalidLetters(group: string)
    | RepeatedLetter(group: string)

  /** strings.Split(s, " "): every space ends a group, so n spaces give n + 1 groups. */
  function Split(s: string): (groups: seq<string>)
    ensures |groups| >= 1
    ensures forall k :: 0 <= k < |groups| ==> ' ' !in groups[k]
    ensures Join(groups) == s
  {
    if |s| == 0 then [""]
    else
      var rest := Split(s[1..]);
      if s[0] == ' ' then [""] + rest
      else [[s[0]] + rest[0]] + rest[1..]
  }

  /** The groups glued back with single spaces. */
  function Join(groups: seq<string>): string {
    if |groups| == 0 then ""
    else if |groups| == 1 then groups[0]
    else groups[0] + " " + Join(groups[1..])
  }

  /** Split undoes Join on groups without spaces. */
  lemma {:induction false} SplitJoin(groups: seq<string>)
    requires |groups| >= 1
    requires forall k :: 0 <= k < |groups| ==> ' ' !in groups[k]
    ensures Split(Join(groups)) == groups
    decreases |groups|, |groups[0]|
  {
    var g := groups[0];
    if |groups| == 1 {
      if |g| > 0 {
        SplitJoin([g[1..]]);
        SplitChar(g[0], g[1..]);
        assert [g[0]] + g[1..] == g;
      }
    } else if |g| == 0 {
      assert Join(groups) == [' '] + Join(groups[1..]);
      SplitJoin(groups[1..]);
      SplitSpace(Join(groups[1..]));
      assert [""] + groups[1..] == groups;
    } else {
      var groups' := [g[1..]] + groups[1..];
      assert groups'[1..] == groups[1..];
      assert forall k :: 0 <= k < |groups'| ==> ' ' !in groups'[k];
      SplitJoin(groups');
      JoinFirstChar(groups);
      SplitChar(g[0], Join(groups'));
      assert [g[0]] + g[1..] == g;
      assert [g] + groups[1..] == groups;
    }
  }

  lemma SplitSpace(t: string)
    ensures Split([' '] + t) == [""] + Split(t)
  {
    assert ([' '] + t)[1..] == t;
  }

  lemma SplitChar(c: char, t: string)
    requires c != ' '
    ensures Split([c] + t) == [[c] + Split(t)[0]] + Split(t)[1..]
  {
    assert ([c] + t)[1..] == t;
  }

  /** Joining peels off the first character of a non-empty first group. */
  lemma JoinFirstChar(groups: seq<string>)
    requires |groups| >= 2 && |groups[0]| > 0
    ensures Join(groups) == [groups[0][0]] + Join([groups[0][1..]] + groups[1..])
  {
    var g, rest := groups[0], groups[1..];
    var groups' := [g[1..]] + rest;
    assert groups'[0] == g[1..] && groups'[1..] == rest;
    var j := Join(rest);
    assert Join(groups) == g + " " + j;
    assert Join(groups') == g[1..] + " " + j;
    PeelFirst(g, j);
  }

  lemma PeelFirst(g: string, t: string)
    requires |g| > 0
    ensures g + " " + t == [g[0]] + (g[1..] + " " + t)
  {
    assert g == [g[0]] + g[1..];
  }

  /** Two different upper-case letters. */
  predicate WellFormedGroup(g: string) {
    |g| == 2 && g[0] != g[1] && IsAllowedCharacter(g[0]) && IsAllowedCharacter(g[1])
  }

  /** Every letter occurring in some group. */
  function Letters(groups: seq<string>): set<char> {
    set k, j | 0 <= k < |groups| && 0 <= j < |groups[k]| :: groups[k][j]
  }

  predicate DisjointGroups(g: string, h: string)
    requires |g| == 2 && |h| == 2
  {
    g[0] != h[0] && g[0] != h[1] && g[1] != h[0] && g[1] != h[1]
  }

  /** Every group well formed and no letter used by two groups. */
  predicate ValidGroups(groups: seq<string>) {
    && (forall k :: 0 <= k < |groups| ==> WellFormedGroup(groups[k]))
    && (forall j, k :: 0 <= j < k < |groups| ==> DisjointGroups(groups[j], groups[k]))
  }

  /** No group mentions a letter of `occupied`. */
  predicate FreeLetters(groups: seq<string>, occupied: set<char>) {
    forall k, j :: 0 <= k < |groups| && 0 <= j < |groups[k]| ==> groups[k][j] !in occupied
  }

  /** The symbol pair of a two-letter group. */
  function SymbolPair(g: string): seq<int>
    requires |g| == 2
  {
    [Index(g[0]), Index(g[1])]
  }

  /** The checks parseStringPlugboard makes on one group, in its order. */
  function GroupFault(g: string, occupied: set<char>): (f: Option<ParseError>)
    ensures f.None? <==> WellFormedGroup(g) && g[0] !in occupied && g[1] !in occupied
    ensures f.Some? ==> !f.value.TooManyGroups? && f.value.group == g
    ensures f.Some? && f.value.GroupLength? ==> |g| != 2
    ensures f.Some? && f.value.SelfConnection? ==> |g| == 2 && g[0] == g[1]
    ensures f.Some? && f.value.InvalidLetters? ==>
      |g| == 2 && g[0] != g[1] && !(IsAllowedCharacter(g[0]) && IsAllowedCharacter(g[1]))
    ensures f.Some? && f.value.RepeatedLetter? ==> WellFormedGroup(g) && (g[0] in occupied || g[1] in occupied)
  {
    if |g| != 2 then Some(GroupLength(g))
    else if g[0] == g[1] then Some(SelfConnection(g))
    else if !IsAllowedCharacter(g[0]) || !IsAllowedCharacter(g[1]) then Some(InvalidLetters(g))
    else if g[0] in occupied || g[1] in occupied then Some(RepeatedLetter(g))
    else None
  }

  /** The loop of parseStringPlugboard from the pairs and occupied letters so far. */
  function ParseGroups(groups: seq<string>, occupied: set<char>, res: seq<seq<int>>)
    : Result<seq<seq<int>>, ParseError>
    decreases |groups|
  {
    if |groups| == 0 then Ok(res)
    else
      var g := groups[0];
      match GroupFault(g, occupied)
      case Some(e) => Err(e)
      case None => ParseGroups(groups[1..], occupied + {g[0], g[1]}, res + [SymbolPair(g)])
  }

  /** What parseStringPlugboard returns: the group count is checked first. */
  function ParsePlugboard(s: string): Result<seq<seq<int>>, ParseError> {
    var groups := Split(s);
    if |groups| > MaxPlugs then Err(TooManyGroups(|groups|))
    else ParseGroups(groups, {}, [])
  }

  /** parseStringPlugboard: appends one symbol pair per group, tracking occupied letters. */
  method ParseStringPlugboard(s: string) returns (r: Result<seq<seq<int>>, ParseError>)
    ensures r == ParsePlugboard(s)
  {
    var pairs := Split(s);
    if |pairs| > MaxPlugs {
      return Err(TooManyGroups(|pairs|));
    }
    var res: seq<seq<int>> := [];
    var occupied: set<char> := {};
    for i := 0 to |pairs|
      invariant ParsePlugboard(s) == ParseGroups(pairs[i..], occupied, res)
    {
      var p := pairs[i];
      assert pairs[i..][0] == p && pairs[i..][1..] == pairs[i + 1..];
      if |p| != 2 {
        return Err(GroupLength(p));
      }
      if p[0] == p[1] {
        return Err(SelfConnection(p));
      }
      var r1 := p[0];
      var r2 := p[1];
      if !IsAllowedCharacter(r1) || !IsAllowedCharacter(r2) {
        return Err(InvalidLetters(p));
      }
      var ok0 := r1 in occupied;
      var ok1 := r2 in occupied;
      if ok0 || ok1 {
        return Err(RepeatedLetter(p));
      }
      assert occupied + {r1} + {r2} == occupied + {p[0], p[1]};
      occupied := occupied + {r1};
      occupied := occupied + {r2};
      res := res + [[Index(r1), Index(r2)]];
      assert [Index(r1), Index(r2)] == SymbolPair(p);
    }
    return Ok(res);
  }

  // ---------------------------------------------------------------------
  // What parseStringPlugboard promises
  // ---------------------------------------------------------------------

  lemma LettersCons(groups: seq<string>)
    requires |groups| > 0 && |groups[0]| == 2
    ensures Letters(groups) == {groups[0][0], groups[0][1]} + Letters(groups[1..])
  {
    var tail := groups[1..];
    forall c | c in Letters(groups)
      ensures c in {groups[0][0], groups[0][1]} + Letters(tail)
    {
      var k, j :| 0 <= k < |groups| && 0 <= j < |groups[k]| && groups[k][j] == c;
      if k > 0 {
        assert tail[k - 1][j] == c;
      }
    }
    forall c | c in Letters(tail)
      ensures c in Letters(groups)
    {
      var k, j :| 0 <= k < |tail| && 0 <= j < |tail[k]| && tail[k][j] == c;
      assert groups[k + 1][j] == c;
    }
    assert groups[0][0] == groups[0][0] && groups[0][1] in Letters(groups);
  }

  /** ValidGroups and FreeLetters unfold at the head group. */
  lemma ValidGroupsCons(groups: seq<string>, occupied: set<char>)
    requires |groups| > 0 && WellFormedGroup(groups[0])
    ensures ValidGroups(groups) && FreeLetters(groups, occupied) <==>
      && groups[0][0] !in occupied && groups[0][1] !in occupied
      && ValidGroups(groups[1..]) && FreeLetters(groups[1..], occupied + {groups[0][0], groups[0][1]})
  {
    var g, tail := groups[0], groups[1..];
    var occupied' := occupied + {g[0], g[1]};
    if ValidGroups(groups) && FreeLetters(groups, occupied) {
      assert g[0] == groups[0][0] && g[1] == groups[0][1];
      assert ValidGroups(tail) by {
        forall j, k | 0 <= j < k < |tail|
          ensures DisjointGroups(tail[j], tail[k])
        {
          assert tail[j] == groups[j + 1] && tail[k] == groups[k + 1];
        }
      }
      forall k, j | 0 <= k < |tail| && 0 <= j < |tail[k]|
        ensures tail[k][j] !in occupied'
      {
        assert tail[k] == groups[k + 1];
        assert DisjointGroups(groups[0], groups[k + 1]);
      }
    }
    if && g[0] !in occupied && g[1] !in occupied && ValidGroups(tail) && FreeLetters(tail, occupied') {
      forall k | 0 <= k < |groups|
        ensures WellFormedGroup(groups[k])
      {
        if k > 0 { assert groups[k] == tail[k - 1]; }
      }
      forall j, k | 0 <= j < k < |groups|
        ensures DisjointGroups(groups[j], groups[k])
      {
        assert groups[k] == tail[k - 1];
        if j > 0 {
          assert groups[j] == tail[j - 1];
        } else {
          assert tail[k - 1][0] !in occupied' && tail[k - 1][1] !in occupied';
        }
      }
      forall k, j | 0 <= k < |groups| && 0 <= j < |groups[k]|
        ensures groups[k][j] !in occupied
      {
        if k > 0 { assert groups[k][j] == tail[k - 1][j]; }
      }
    }
  }

  /** The parsing fold accepts exactly the valid groups that avoid the occupied letters. */
  lemma {:induction false} ParseGroupsAccepts(groups: seq<string>, occupied: set<char>, res: seq<seq<int>>)
    ensures ParseGroups(groups, occupied, res).Ok? <==> ValidGroups(groups) && FreeLetters(groups, occupied)
    decreases |groups|
  {
    if |groups| > 0 {
      var g := groups[0];
      if GroupFault(g, occupied).None? {
        ParseGroupsAccepts(groups[1..], occupied + {g[0], g[1]}, res + [SymbolPair(g)]);
        ValidGroupsCons(groups, occupied);
      } else {
        assert !(ValidGroups(groups) && FreeLetters(groups, occupied)) by {
          if WellFormedGroup(g) {
            assert g[0] in occupied || g[1] in occupied;
            assert groups[0][0] == g[0] && groups[0][1] == g[1];
          }
        }
      }
    }
  }

  /** An accepted fold appends one symbol pair per group, in order. */
  lemma {:induction false} ParseGroupsResult(groups: seq<string>, occupied: set<char>, res: seq<seq<int>>)
    requires ParseGroups(groups, occupied, res).Ok?
    ensures ValidGroups(groups)
    ensures var out := ParseGroups(groups, occupied, res).value;
      && |out| == |res| + |groups|
      && out[..|res|] == res
      && (forall k :: 0 <= k < |groups| ==> out[|res| + k] == SymbolPair(groups[k]))
    decreases |groups|
  {
    ParseGroupsAccepts(groups, occupied, res);
    if |groups| > 0 {
      var g := groups[0];
      var tail := groups[1..];
      var res' := res + [SymbolPair(g)];
      ParseGroupsResult(tail, occupied + {g[0], g[1]}, res');
      var out := ParseGroups(groups, occupied, res).value;
      assert out == ParseGroups(tail, occupied + {g[0], g[1]}, res').value;
      assert out[..|res|] == out[..|res'|][..|res|];
      forall k | 0 <= k < |groups|
        ensures out[|res| + k] == SymbolPair(groups[k])
      {
        if k > 0 {
          assert groups[k] == tail[k - 1];
          assert out[|res'| + (k - 1)] == SymbolPair(tail[k - 1]);
        } else {
          assert out[|res|] == out[..|res'|][|res|];
        }
      }
    }
  }

  /** A rejected fold fails on the first group not acceptable given the letters before it. */
  lemma {:induction false} ParseGroupsFault(groups: seq<string>, occupied: set<char>, res: seq<seq<int>>)
    requires ParseGroups(groups, occupied, res).Err?
    ensures exists k ::
      && 0 <= k < |groups| && ValidGroups(groups[..k]) && FreeLetters(groups[..k], occupied)
      && GroupFault(groups[k], occupied + Letters(groups[..k])) == Some(ParseGroups(groups, occupied, res).error)
    decreases |groups|
  {
    var g := groups[0];
    var e := ParseGroups(groups, occupied, res).error;
    if GroupFault(g, occupied).Some? {
      assert groups[..0] == [];
      assert Letters(groups[..0]) == {};
      assert occupied + Letters(groups[..0]) == occupied;
    } else {
      var occupied' := occupied + {g[0], g[1]};
      var tail := groups[1..];
      ParseGroupsFault(tail, occupied', res + [SymbolPair(g)]);
      var k' :| 0 <= k' < |tail| && ValidGroups(tail[..k']) && FreeLetters(tail[..k'], occupied')
        && GroupFault(tail[k'], occupied' + Letters(tail[..k'])) == Some(e);
      GroupsPrefixCons(groups, occupied, k');
      assert groups[k' + 1] == tail[k'];
    }
  }

  /** A clean prefix of the tail, behind an acceptable head group, is a clean prefix of the groups. */
  lemma GroupsPrefixCons(groups: seq<string>, occupied: set<char>, k': nat)
    requires k' + 1 < |groups| && GroupFault(groups[0], occupied).None?
    requires var occupied' := occupied + {groups[0][0], groups[0][1]};
      ValidGroups(groups[1..][..k']) && FreeLetters(groups[1..][..k'], occupied')
    ensures ValidGroups(groups[..k' + 1]) && FreeLetters(groups[..k' + 1], occupied)
    ensures occupied + Letters(groups[..k' + 1])
         == occupied + {groups[0][0], groups[0][1]} + Letters(groups[1..][..k'])
  {
    var prefix := groups[..k' + 1];
    assert prefix[0] == groups[0] && prefix[1..] == groups[1..][..k'];
    ValidGroupsCons(prefix, occupied);
    LettersCons(prefix);
  }

  /**
   * parseStringPlugboard succeeds exactly on at most ten space-separated
   * groups of two different upper-case letters, no letter used twice.
   */
  lemma ParseAccepted(s: string)
    ensures ParsePlugboard(s).Ok? <==> |Split(s)| <= MaxPlugs && ValidGroups(Split(s))
  {
    ParseGroupsAccepts(Split(s), {}, []);
    assert FreeLetters(Split(s), {});
  }

  /** On success there is one pair per group, in order, each letter turned into its symbol. */
  lemma ParseShape(s: string)
    requires ParsePlugboard(s).Ok?
    ensures ValidGroups(Split(s))
    ensures var pairs := ParsePlugboard(s).value;
      && |pairs| == |Split(s)|
      && (forall k :: 0 <= k < |pairs| ==> pairs[k] == SymbolPair(Split(s)[k]))
  {
    ParseGroupsResult(Split(s), {}, []);
  }

  /**
   * On failure the error names the group count, or the first group that has
   * the wrong length, repeats its letter, is not upper case or reuses a letter.
   */
  lemma ParseRejected(s: string)
    requires ParsePlugboard(s).Err?
    ensures var groups, e := Split(s), ParsePlugboard(s).error;
      || (|groups| > MaxPlugs && e == TooManyGroups(|groups|))
      || (&& |groups| <= MaxPlugs
          && exists k :: 0 <= k < |groups| && ValidGroups(groups[..k])
               && GroupFault(groups[k], Letters(groups[..k])) == Some(e))
  {
    var groups := Split(s);
    if |groups| <= MaxPlugs {
      ParseGroupsFault(groups, {}, []);
      assert forall t: set<char> :: {} + t == t;
    }
  }

  /** Whatever parseStringPlugboard returns, newPlugboard accepts. */
  lemma ParsedAccepted(s: string)
    requires ParsePlugboard(s).Ok?
    ensures BuildPlugboard(ParsePlugboard(s).value).Ok?
  {
    var pairs := ParsePlugboard(s).value;
    var groups := Split(s);
    ParseShape(s);
    assert |pairs| <= MaxPlugs;
    forall k | 0 <= k < |pairs|
      ensures WellFormedPair(pairs[k])
    {
      assert WellFormedGroup(groups[k]);
    }
    forall j, k | 0 <= j < k < |pairs|
      ensures Disjoint(pairs[j], pairs[k])
    {
      assert DisjointGroups(groups[j], groups[k]);
    }
    PlugboardAccepted(pairs);
  }

  /** The empty string is one empty group, rejected for its length. */
  lemma EmptyRejected()
    ensures ParsePlugboard("") == Err(GroupLength(""))
  {
  }
}
