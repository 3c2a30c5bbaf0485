/**
 * The molecule model of the playground package: Atom records, the Molecule
 * that holds them in a dict keyed by atom id, and the assembly of a
 * molecular basis from per-element AO templates (apply_basis_set).
 *
 * The elements table of playground/utils is not part of this model; it is
 * the parameter `elements` wherever an Atom is made.
 */
module Playground {
  import opened Outcomes
  import opened Text
  import opened BasisSet

  /** Element symbol to (atomic number, name). */
  type ElementTable = map<string, (nat, string)>

  /** A Python dict's entries in insertion order: its keys and, position by position, its values. */
  datatype Entries<V> = Entries(keys: seq<string>, values: seq<V>)

  /** A Python dict: one value per key, and no key twice. */
  type Dict<V> = d: Entries<V> | |d.keys| == |d.values| && forall i, j :: 0 <= i < j < |d.keys| ==> d.keys[i] != d.keys[j]
    witness Entries([], [])

  // ------------------------------------------------------------------ atoms

  /** An atom: symbol and centre fixed at creation; `orbitals` unset until a basis is applied. */
  class Atom {
    const symbol: string
    const centre: Point
    const atomicNumber: nat
    const name: string
    var orbitals: Option<seq<AO>>

    /** Atom(symbol, centre) for a symbol the elements table holds. */
    constructor (symbol: string, centre: Point, elements: ElementTable)
      requires symbol in elements
      ensures this.symbol == symbol && this.centre == centre
      ensures (atomicNumber, name) == elements[symbol]
      ensures orbitals == None
    {
      this.symbol := symbol;
      this.centre := centre;
      this.atomicNumber := elements[symbol].0;
      this.name := elements[symbol].1;
      this.orbitals := None;
    }

    /** atomic_number and name are exactly the elements table's entry for the symbol. */
    ghost predicate Consistent(elements: ElementTable)
    {
      symbol in elements && (atomicNumber, name) == elements[symbol]
    }
  }

  /**
   * Atom(symbol, centre), including its failure: the elements lookup raises
   * KeyError for an unknown symbol.
   */
  method NewAtom(symbol: string, centre: Point, elements: ElementTable) returns (r: Result<Atom>)
    ensures r.Err? <==> symbol !in elements
    ensures r.Err? ==> r.error == MissingKey(symbol)
    ensures r.Ok? ==> fresh(r.value) && r.value.Consistent(elements)
    ensures r.Ok? ==> r.value.symbol == symbol && r.value.centre == centre && r.value.orbitals == None
  {
    if symbol !in elements {
      return Err(MissingKey(symbol));
    }
    var atom := new Atom(symbol, centre, elements);
    return Ok(atom);
  }

  /** Sum of the atomic numbers, in iteration order. */
  function ElectronCount(atoms: seq<Atom>): nat
  {
    if atoms == [] then 0 else atoms[0].atomicNumber + ElectronCount(atoms[1..])
  }

  /** Sum of the elements table's atomic numbers over a list of symbols. */
  function SymbolElectrons(symbols: seq<string>, elements: ElementTable): nat
    requires forall i :: 0 <= i < |symbols| ==> symbols[i] in elements
  {
    if symbols == [] then 0 else elements[symbols[0]].0 + SymbolElectrons(symbols[1..], elements)
  }

  /** The symbol of each atom, in order. */
  function Symbols(atoms: seq<Atom>): (ts: seq<string>)
    ensures |ts| == |atoms|
    ensures forall i :: 0 <= i < |atoms| ==> ts[i] == atoms[i].symbol
  {
    seq(|atoms|, i requires 0 <= i < |atoms| => atoms[i].symbol)
  }

  /**
   * n_electrons depends only on the atom types: for atoms made through the
   * elements table it is the table's atomic numbers summed over the symbols.
   */
  lemma {:induction false} ElectronCountBySymbol(atoms: seq<Atom>, elements: ElementTable)
    requires forall i :: 0 <= i < |atoms| ==> atoms[i].Consistent(elements)
    ensures forall i :: 0 <= i < |atoms| ==> Symbols(atoms)[i] in elements
    ensures ElectronCount(atoms) == SymbolElectrons(Symbols(atoms), elements)
  {
    if atoms != [] {
      ElectronCountBySymbol(atoms[1..], elements);
      assert Symbols(atoms)[1..] == Symbols(atoms[1..]);
    }
  }

  /** Combining two atom lists adds their electron counts. */
  lemma {:induction false} ElectronCountAppend(a: seq<Atom>, b: seq<Atom>)
    ensures ElectronCount(a + b) == ElectronCount(a) + ElectronCount(b)
  {
    if a != [] {
      assert (a + b)[1..] == a[1..] + b;
      ElectronCountAppend(a[1..], b);
    } else {
      assert a + b == b;
    }
  }

  /** Water: two hydrogens and an oxygen hold ten electrons. */
  lemma WaterElectrons(h1: Atom, h2: Atom, o: Atom, elements: ElementTable)
    requires "H" in elements && "O" in elements && elements["H"].0 == 1 && elements["O"].0 == 8
    requires h1.symbol == "H" && h2.symbol == "H" && o.symbol == "O"
    requires h1.Consistent(elements) && h2.Consistent(elements) && o.Consistent(elements)
    ensures ElectronCount([h1, h2, o]) == 10
  {
    ElectronCountBySymbol([h1, h2, o], elements);
    var symbols := Symbols([h1, h2, o]);
    assert symbols == ["H", "H", "O"];
    assert symbols[1..][1..][1..] == [];
    assert SymbolElectrons(symbols[1..][1..], elements) == 8;
  }

  // ---------------------------------------------------------- bond lookup

  /** list.index(x): the first position holding x, or None where Python raises ValueError. */
  function IndexOf(xs: seq<string>, x: string): (r: Option<nat>)
    ensures r.None? <==> x !in xs
    ensures r.Some? ==> r.value < |xs| && xs[r.value] == x && x !in xs[..r.value]
  {
    if xs == [] then None
    else if xs[0] == x then Some(0)
    else
      match IndexOf(xs[1..], x)
      case None => None
      case Some(i) =>
        assert xs[..i + 1] == [xs[0]] + xs[1..][..i];
        Some(i + 1)
  }

  /** One bond key "id1 id2": split, unpacked into two ids, each looked up in the atom ids. */
  function ResolveBond(ids: seq<string>, bond: string): Result<(nat, nat)>
  {
    var w := Words(bond);
    if |w| != 2 then Err(UnpackMismatch)
    else
      match IndexOf(ids, w[0])
      case None => Err(NotInList(w[0]))
      case Some(i) =>
        match IndexOf(ids, w[1])
        case None => Err(NotInList(w[1]))
        case Some(j) => Ok((i, j))
  }

  /** The bonds property as a function: every key resolved in order; the first failure is raised. */
  function ResolveBonds(ids: seq<string>, bonds: seq<string>): Result<seq<(nat, nat)>>
  {
    if bonds == [] then Ok([])
    else
      match ResolveBond(ids, bonds[0])
      case Err(e) => Err(e)
      case Ok(p) => Then([p], ResolveBonds(ids, bonds[1..]))
  }

  /** A bond key that names exactly two atom ids. */
  predicate BondResolvable(ids: seq<string>, bond: string)
  {
    var w := Words(bond);
    |w| == 2 && w[0] in ids && w[1] in ids
  }

  /**
   * The bonds resolve exactly when every key names two known atom ids; then
   * the k-th pair holds the positions of the k-th key's ids, first occurrence.
   */
  lemma {:induction false} BondsResolved(ids: seq<string>, bonds: seq<string>)
    ensures ResolveBonds(ids, bonds).Ok? <==> forall k :: 0 <= k < |bonds| ==> BondResolvable(ids, bonds[k])
    ensures ResolveBonds(ids, bonds).Ok? ==>
      var pairs := ResolveBonds(ids, bonds).value;
      && |pairs| == |bonds|
      && forall k :: 0 <= k < |bonds| ==>
           && pairs[k].0 < |ids| && pairs[k].1 < |ids|
           && Words(bonds[k]) == [ids[pairs[k].0], ids[pairs[k].1]]
           && pairs[k] == (IndexOf(ids, ids[pairs[k].0]).value, IndexOf(ids, ids[pairs[k].1]).value)
  {
    if bonds != [] {
      BondsResolved(ids, bonds[1..]);
      var r := ResolveBond(ids, bonds[0]);
      if r.Ok? {
        var rest := ResolveBonds(ids, bonds[1..]);
        if rest.Ok? {
          var pairs := ResolveBonds(ids, bonds).value;
          assert pairs == [r.value] + rest.value;
          forall k | 0 <= k < |bonds|
            ensures && pairs[k].0 < |ids| && pairs[k].1 < |ids|
              && Words(bonds[k]) == [ids[pairs[k].0], ids[pairs[k].1]]
              && pairs[k] == (IndexOf(ids, ids[pairs[k].0]).value, IndexOf(ids, ids[pairs[k].1]).value)
          {
            if k > 0 {
              assert bonds[k] == bonds[1..][k - 1];
              assert pairs[k] == rest.value[k - 1];
            }
          }
        }
        assert forall k :: 1 <= k < |bonds| ==> bonds[k] == bonds[1..][k - 1];
      }
    }
  }

  /** A key written as " ".join of two atom ids resolves to their positions. */
  lemma BondOfJoin(ids: seq<string>, a: string, b: string)
    requires IsWord(a) && IsWord(b) && a in ids && b in ids
    ensures ResolveBond(ids, Join([a, b])) == Ok((IndexOf(ids, a).value, IndexOf(ids, b).value))
  {
    WordsOfJoin([a, b]);
  }

  // ------------------------------------------------------ orbital assembly

  /** The values of AO templates moved onto one centre. */
  function Recentre(vs: seq<Orbital>, c: Point): (ws: seq<Orbital>)
  {
    seq(|vs|, i requires 0 <= i < |vs| => vs[i].(centre := c))
  }

  /** Moving templates changes nothing but the centre: same count, types, order and data. */
  lemma RecentreKeepsShape(vs: seq<Orbital>, c: Point)
    ensures |Recentre(vs, c)| == |vs|
    ensures forall i :: 0 <= i < |vs| ==>
      && Recentre(vs, c)[i].orbitalType == vs[i].orbitalType
      && Recentre(vs, c)[i].contractNum == vs[i].contractNum
      && Recentre(vs, c)[i].exponents == vs[i].exponents
      && Recentre(vs, c)[i].coeffs == vs[i].coeffs
      && Recentre(vs, c)[i].angular == vs[i].angular
      && Recentre(vs, c)[i].centre == c
  {
  }

  /** An atom's orbital list, or no objects while it is unset. */
  function OrbitalsOf(a: Atom): seq<AO>
    reads a
  {
    if a.orbitals.Some? then a.orbitals.value else []
  }

  /** The atom holds its element's templates, moved onto its own centre. */
  ghost predicate Bound(a: Atom, table: Table)
    reads a, OrbitalsOf(a)
  {
    a.orbitals.Some? && a.symbol in table && Views(a.orbitals.value) == Recentre(table[a.symbol], a.centre)
  }

  /** Two orbital lists with no AO object in common. */
  ghost predicate Disjoint(xs: seq<AO>, ys: seq<AO>)
  {
    forall i, j :: 0 <= i < |xs| && 0 <= j < |ys| ==> xs[i] != ys[j]
  }

  /**
   * One iteration of apply_basis_set's loop, for an atom whose symbol the
   * basis set holds: the atom is bound, the atoms bound before stay bound,
   * and `owner` records the new AOs as the atom's.
   */
  method BindNext(atoms: seq<Atom>, i: nat, basis: map<string, seq<AO>>, ghost table: Table, ghost owner: map<AO, Atom>)
    returns (ghost owner': map<AO, Atom>)
    requires i < |atoms| && atoms[i].symbol in basis
    requires forall s :: s in basis ==> s in table && Views(basis[s]) == table[s]
    requires forall l :: 0 <= l < i ==> Bound(atoms[l], table) && Owns(owner, atoms[l])
    modifies atoms[i]
    ensures forall l :: 0 <= l <= i ==> Bound(atoms[l], table) && Owns(owner', atoms[l])
    ensures forall x :: x in owner' ==> x in owner || fresh(x)
  {
    var atom := atoms[i];
    BindAtom(atom, basis[atom.symbol]);
    owner' := owner + map x | x in OrbitalsOf(atom) :: atom;
  }

  /** Every AO of the atom's list is recorded in `owner` as belonging to that atom. */
  ghost predicate Owns(owner: map<AO, Atom>, a: Atom)
    reads a
  {
    forall x :: x in OrbitalsOf(a) ==> x in owner && owner[x] == a
  }

  /** Atoms whose AOs all map to themselves in one owner map share no AO. */
  lemma OwnersSeparate(atoms: seq<Atom>, k: nat, owner: map<AO, Atom>)
    requires k <= |atoms|
    requires forall l :: 0 <= l < k ==> Owns(owner, atoms[l])
    ensures forall l, m :: 0 <= l < k && 0 <= m < k && atoms[l] != atoms[m] ==>
      Disjoint(OrbitalsOf(atoms[l]), OrbitalsOf(atoms[m]))
  {
    forall l, m | 0 <= l < k && 0 <= m < k && atoms[l] != atoms[m]
      ensures Disjoint(OrbitalsOf(atoms[l]), OrbitalsOf(atoms[m]))
    {
      var xs, ys := OrbitalsOf(atoms[l]), OrbitalsOf(atoms[m]);
      assert Owns(owner, atoms[l]) && Owns(owner, atoms[m]);
      forall a, b | 0 <= a < |xs| && 0 <= b < |ys|
        ensures xs[a] != ys[b]
      {
        assert xs[a] in xs && ys[b] in ys;
      }
    }
  }

  /** The first position whose symbol the basis set lacks, or the length when it has them all. */
  function FirstMissing(symbols: seq<string>, known: set<string>): (k: nat)
    ensures k <= |symbols|
    ensures forall i :: 0 <= i < k ==> symbols[i] in known
    ensures k < |symbols| ==> symbols[k] !in known
  {
    if symbols == [] || symbols[0] !in known then 0 else 1 + FirstMissing(symbols[1..], known)
  }

  /** The first missing position is the one where the known prefix ends. */
  lemma {:induction false} FirstMissingAt(symbols: seq<string>, known: set<string>, i: nat)
    requires i <= |symbols|
    requires forall l :: 0 <= l < i ==> symbols[l] in known
    requires i < |symbols| ==> symbols[i] !in known
    ensures FirstMissing(symbols, known) == i
  {
    if i > 0 {
      assert symbols[0] in known;
      FirstMissingAt(symbols[1..], known, i - 1);
    }
  }

  /**
   * copy.deepcopy of a list of AO objects: a fresh AO per distinct template,
   * with the template's value; deepcopy's memo makes a template listed twice
   * come back as one copy listed twice.
   */
  method DeepCopy(templates: seq<AO>) returns (copies: seq<AO>)
    ensures |copies| == |templates|
    ensures Views(copies) == Views(templates)
    ensures forall i :: 0 <= i < |copies| ==> fresh(copies[i])
    ensures forall i, j :: 0 <= i < |copies| && 0 <= j < |copies| ==> (copies[i] == copies[j] <==> templates[i] == templates[j])
  {
    copies := [];
    for i := 0 to |templates|
      invariant |copies| == i
      invariant forall l :: 0 <= l < i ==> fresh(copies[l]) && copies[l].Value() == templates[l].Value()
      invariant forall l, m :: 0 <= l < i && 0 <= m < i ==> (copies[l] == copies[m] <==> templates[l] == templates[m])
    {
      var t := templates[i];
      var j := 0;
      while j < i && templates[j] != t
        invariant 0 <= j <= i
        invariant forall l :: 0 <= l < j ==> templates[l] != t
      {
        j := j + 1;
      }
      if j < i {
        copies := copies + [copies[j]];
      } else {
        var c := new AO.Copy(t);
        copies := copies + [c];
      }
    }
  }

  /** The inner loop of apply_basis_set: every AO of the list gets the centre c. */
  method SetCentres(aos: seq<AO>, c: Point)
    modifies set x | x in aos
    ensures Views(aos) == Recentre(old(Views(aos)), c)
  {
    for i := 0 to |aos|
      invariant forall l :: 0 <= l < i ==> aos[l].centre == c
    {
      aos[i].centre := c;
    }
  }

  /** One step of apply_basis_set: the atom gets a deep copy of the templates, moved onto its centre. */
  method BindAtom(atom: Atom, templates: seq<AO>)
    modifies atom
    ensures atom.orbitals.Some?
    ensures Views(atom.orbitals.value) == Recentre(Views(templates), atom.centre)
    ensures forall x :: x in atom.orbitals.value ==> fresh(x)
  {
    var copies := DeepCopy(templates);
    atom.orbitals := Some(copies);
    SetCentres(copies, atom.centre);
  }

  /** Every atom holds an orbital list: extending by each in turn cannot fail. */
  predicate AllSet(atoms: seq<Atom>)
    reads atoms
  {
    forall i :: 0 <= i < |atoms| ==> atoms[i].orbitals.Some?
  }

  /**
   * The orbitals property: the atoms' lists concatenated in iteration order;
   * an atom whose list is unset raises TypeError (extend by None).
   */
  function AllOrbitals(atoms: seq<Atom>): Result<seq<AO>>
    reads atoms
  {
    if atoms == [] then Ok([])
    else
      match atoms[0].orbitals
      case None => Err(NotIterable)
      case Some(aos) => Then(aos, AllOrbitals(atoms[1..]))
  }

  /** The molecular basis as values: each atom's templates moved onto its centre, atoms in order. */
  function Placed(atoms: seq<Atom>, table: Table): seq<Orbital>
    requires forall i :: 0 <= i < |atoms| ==> atoms[i].symbol in table
  {
    if atoms == [] then [] else Recentre(table[atoms[0].symbol], atoms[0].centre) + Placed(atoms[1..], table)
  }

  /** The orbitals property fails exactly when some atom's list is unset. */
  lemma {:induction false} AllOrbitalsDefined(atoms: seq<Atom>)
    ensures AllOrbitals(atoms).Ok? <==> AllSet(atoms)
  {
    if atoms != [] {
      AllOrbitalsDefined(atoms[1..]);
      assert AllSet(atoms) <==> atoms[0].orbitals.Some? && AllSet(atoms[1..]);
    }
  }

  /** Once every atom is bound, the molecule's orbitals are the placed templates, atom by atom. */
  lemma {:induction false} OrbitalsAfterBinding(atoms: seq<Atom>, table: Table)
    requires forall i :: 0 <= i < |atoms| ==> Bound(atoms[i], table)
    ensures forall i :: 0 <= i < |atoms| ==> atoms[i].symbol in table
    ensures AllOrbitals(atoms).Ok?
    ensures Views(AllOrbitals(atoms).value) == Placed(atoms, table)
  {
    if atoms != [] {
      OrbitalsAfterBinding(atoms[1..], table);
      assert Bound(atoms[0], table);
      var first := atoms[0].orbitals.value;
      var rest := AllOrbitals(atoms[1..]).value;
      ViewsAppend(first, rest);
    }
  }

  // --------------------------------------------------------------- molecule

  /** A molecule: atoms by id and bond orders by "id1 id2" key, both in insertion order. */
  class Molecule {
    const atomTable: Dict<Atom>
    const bondTable: Dict<string>
    const nElectrons: nat

    constructor (atoms: Dict<Atom>, bonds: Dict<string>)
      ensures atomTable == atoms && bondTable == bonds
      ensures nElectrons == ElectronCount(atoms.values)
    {
      atomTable := atoms;
      bondTable := bonds;
      nElectrons := ElectronCount(atoms.values);
    }

    /** Iterating over a molecule: its atoms, one per id, in insertion order. */
    function Atoms(): (atoms: seq<Atom>)
      ensures |atoms| == |atomTable.keys|
    {
      atomTable.values
    }

    /** The atom_types property: one symbol per atom, in iteration order. */
    function AtomTypes(): (ts: seq<string>)
      ensures |ts| == |Atoms()|
      ensures forall i :: 0 <= i < |ts| ==> ts[i] == Atoms()[i].symbol
    {
      Symbols(Atoms())
    }

    /** The coordinates property: one centre per atom, in iteration order. */
    function Coordinates(): (cs: seq<Point>)
      ensures |cs| == |Atoms()|
      ensures forall i :: 0 <= i < |cs| ==> cs[i] == Atoms()[i].centre
    {
      seq(|Atoms()|, i requires 0 <= i < |Atoms()| => Atoms()[i].centre)
    }

    /** The orbitals property, the loop that extends `mos` atom by atom. */
    method Orbitals() returns (r: Result<seq<AO>>)
      ensures r == AllOrbitals(Atoms())
    {
      var atoms := Atoms();
      var mos: seq<AO> := [];
      ThenNil(AllOrbitals(atoms));
      for i := 0 to |atoms|
        invariant AllOrbitals(atoms) == Then(mos, AllOrbitals(atoms[i..]))
      {
        assert atoms[i..][1..] == atoms[i + 1..];
        var aos := atoms[i].orbitals;
        if aos.None? {
          return Err(NotIterable);
        }
        ThenThen(mos, aos.value, AllOrbitals(atoms[i + 1..]));
        mos := mos + aos.value;
      }
      assert mos + [] == mos;
      return Ok(mos);
    }

    /** The bonds property: each bond key resolved to a pair of positions in the atom ids. */
    method Bonds() returns (r: Result<seq<(nat, nat)>>)
      ensures r == ResolveBonds(atomTable.keys, bondTable.keys)
    {
      var ids := atomTable.keys;
      var keys := bondTable.keys;
      var bonds: seq<(nat, nat)> := [];
      ThenNil(ResolveBonds(ids, keys));
      for k := 0 to |keys|
        invariant ResolveBonds(ids, keys) == Then(bonds, ResolveBonds(ids, keys[k..]))
      {
        assert keys[k..][1..] == keys[k + 1..];
        var w := Words(keys[k]);
        if |w| != 2 {
          return Err(UnpackMismatch);
        }
        var i := IndexOf(ids, w[0]);
        if i.None? {
          return Err(NotInList(w[0]));
        }
        var j := IndexOf(ids, w[1]);
        if j.None? {
          return Err(NotInList(w[1]));
        }
        ThenThen(bonds, [(i.value, j.value)], ResolveBonds(ids, keys[k + 1..]));
        bonds := bonds + [(i.value, j.value)];
      }
      assert bonds + [] == bonds;
      return Ok(bonds);
    }

    /**
     * apply_basis_set: atom by atom, a deep copy of its element's templates
     * moved onto the atom's centre.  A symbol the basis set lacks raises
     * KeyError there, with the atoms before it already bound and the rest
     * untouched.  No AO is shared between atoms or with the templates, and
     * the templates do not change.
     */
    method ApplyBasisSet(basis: map<string, seq<AO>>) returns (r: Outcome)
      modifies set a | a in Atoms()
      ensures var k := FirstMissing(AtomTypes(), basis.Keys);
        r == (if k == |Atoms()| then Pass else Fail(MissingKey(Atoms()[k].symbol)))
      ensures unchanged(Templates(basis))
      ensures var k := FirstMissing(AtomTypes(), basis.Keys);
        forall i :: 0 <= i < k ==> Bound(Atoms()[i], ViewsOf(basis))
      ensures var k := FirstMissing(AtomTypes(), basis.Keys);
        forall i :: 0 <= i < k ==> forall x :: x in OrbitalsOf(Atoms()[i]) ==> fresh(x)
      ensures var k := FirstMissing(AtomTypes(), basis.Keys);
        forall i, j :: 0 <= i < k && 0 <= j < k && Atoms()[i] != Atoms()[j] ==>
          Disjoint(OrbitalsOf(Atoms()[i]), OrbitalsOf(Atoms()[j]))
      ensures var k := FirstMissing(AtomTypes(), basis.Keys);
        forall i :: k <= i < |Atoms()| && Atoms()[i] !in Atoms()[..k] ==>
          Atoms()[i].orbitals == old(Atoms()[i].orbitals)
    {
      var atoms := Atoms();
      ghost var table := ViewsOf(basis);
      ghost var owner: map<AO, Atom> := map[];
      for i := 0 to |atoms|
        invariant forall l :: 0 <= l < i ==> atoms[l].symbol in basis
        invariant unchanged(Templates(basis))
        invariant forall s :: s in basis ==> s in table && Views(basis[s]) == table[s]
        invariant forall l :: 0 <= l < i ==> Bound(atoms[l], table) && Owns(owner, atoms[l])
        invariant forall x :: x in owner ==> fresh(x)
        invariant forall l :: i <= l < |atoms| && atoms[l] !in atoms[..i] ==>
          atoms[l].orbitals == old(atoms[l].orbitals)
      {
        var atom := atoms[i];
        if atom.symbol !in basis {
          FirstMissingAt(AtomTypes(), basis.Keys, i);
          assert ViewsOf(basis) == table;
          OwnersSeparate(atoms, i, owner);
          return Fail(MissingKey(atom.symbol));
        }
        owner := BindNext(atoms, i, basis, table, owner);
      }
      FirstMissingAt(AtomTypes(), basis.Keys, |atoms|);
      assert ViewsOf(basis) == table;
      OwnersSeparate(atoms, |atoms|, owner);
      return Pass;
    }
  }
}
