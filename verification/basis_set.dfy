/**
 * The "gaussian94" basis-set reader: the AO record, the per-element block
 * parser and the splitter that cuts the text into element blocks.
 *
 * Each operation has a pure specification (ReadRow, ReadRows, ReadShell,
 * ParseShells, ParseBlock, ScanLines, BasisSetOf) and the imperative
 * procedure that the source runs (ParseBasisLines, GetBasisSet) is proved
 * to compute it.  float() is the parameter `toFloat`; None stands for the
 * ValueError float() raises.
 */
module BasisSet {
  import opened Outcomes
  import opened Text

  type FloatParser = string -> Option<real>

  datatype OrbitalType = S | Px | Py | Pz | Dx2 | Dy2 | Dz2 | Dxy | Dyz | Dzx

  /** Cartesian exponents (l, m, n) of x, y and z in a Gaussian-type orbital. */
  datatype Angular = Angular(l: nat, m: nat, n: nat)

  /** The angular_quanta table, restricted to the ten orbital types the parser produces. */
  function AngularQuanta(t: OrbitalType): Angular
  {
    match t
    case S => Angular(0, 0, 0)
    case Px => Angular(1, 0, 0)
    case Py => Angular(0, 1, 0)
    case Pz => Angular(0, 0, 1)
    case Dx2 => Angular(2, 0, 0)
    case Dy2 => Angular(0, 2, 0)
    case Dz2 => Angular(0, 0, 2)
    case Dxy => Angular(1, 1, 0)
    case Dyz => Angular(0, 1, 1)
    case Dzx => Angular(1, 0, 1)
  }

  /** Distinct orbital types get distinct angular triples, and the triple's degree is the shell's momentum. */
  lemma AngularQuantaFaithful(t: OrbitalType, u: OrbitalType)
    ensures AngularQuanta(t) == AngularQuanta(u) ==> t == u
    ensures var a := AngularQuanta(t);
      a.l + a.m + a.n == (if t == S then 0 else if t in {Px, Py, Pz} then 1 else 2)
  {
  }

  datatype Point = Point(x: real, y: real, z: real)

  /** The default centre of an AO template. */
  const Origin := Point(0.0, 0.0, 0.0)

  /** The value held by an AO object. */
  datatype Orbital = Orbital(
    orbitalType: OrbitalType,
    contractNum: int,
    exponents: seq<real>,
    coeffs: seq<real>,
    centre: Point,
    angular: Angular)

  /** An atomic orbital: a contracted Cartesian Gaussian.  Only its centre is ever reassigned. */
  class AO {
    const orbitalType: OrbitalType
    const contractNum: int
    const exponents: seq<real>
    const coeffs: seq<real>
    var centre: Point
    const angular: Angular

    constructor (orbitalType: OrbitalType, contractNum: int, exponents: seq<real>, coeffs: seq<real>, centre: Point)
      ensures Value() == Orbital(orbitalType, contractNum, exponents, coeffs, centre, AngularQuanta(orbitalType))
    {
      this.orbitalType := orbitalType;
      this.contractNum := contractNum;
      this.exponents := exponents;
      this.coeffs := coeffs;
      this.centre := centre;
      this.angular := AngularQuanta(orbitalType);
    }

    /** The copy copy.deepcopy makes of one AO: every field taken from `from`. */
    constructor Copy(from: AO)
      ensures Value() == from.Value()
    {
      this.orbitalType := from.orbitalType;
      this.contractNum := from.contractNum;
      this.exponents := from.exponents;
      this.coeffs := from.coeffs;
      this.centre := from.centre;
      this.angular := from.angular;
    }

    function Value(): Orbital
      reads this
    {
      Orbital(orbitalType, contractNum, exponents, coeffs, centre, angular)
    }
  }

  /** The values of a list of AO objects. */
  function Views(aos: seq<AO>): seq<Orbital>
    reads aos
  {
    seq(|aos|, i reads aos requires 0 <= i < |aos| => aos[i].Value())
  }

  lemma ViewsAppend(a: seq<AO>, b: seq<AO>)
    ensures Views(a + b) == Views(a) + Views(b)
  {
  }

  // ---------------------------------------------------------------- shells

  const FShellMessage := "F orbitals are not yet supported. Please choose a simpler basis set"

  /** The orbitals a shell header expands into, in order; an unknown type expands into none. */
  function Components(shellType: string): seq<OrbitalType>
  {
    if shellType == "S" then [S]
    else if shellType == "P" then [Px, Py, Pz]
    else if shellType == "D" then [Dx2, Dy2, Dz2, Dxy, Dyz, Dzx]
    else if shellType == "SP" then [S, Px, Py, Pz]
    else []
  }

  /** The data columns of one shell, as the source accumulates them. */
  datatype Columns = Columns(exps: seq<real>, coeffs: seq<real>, coeffps: seq<real>)

  /** A template AO: centred on the origin, angular triple looked up from its type. */
  function Template(t: OrbitalType, n: int, exps: seq<real>, coeffs: seq<real>): Orbital
  {
    Orbital(t, n, exps, coeffs, Origin, AngularQuanta(t))
  }

  /** The coefficient column of the k-th orbital of a shell: the P orbitals of an SP shell take the third. */
  function CoeffColumn(shellType: string, k: nat, cols: Columns): seq<real>
  {
    if shellType == "SP" && k > 0 then cols.coeffps else cols.coeffs
  }

  /** The AO templates one shell produces. */
  function Expand(shellType: string, n: int, cols: Columns): seq<Orbital>
  {
    var comps := Components(shellType);
    seq(|comps|, k requires 0 <= k < |comps| => Template(comps[k], n, cols.exps, CoeffColumn(shellType, k, cols)))
  }

  /** The field of a data line that holds the k-th orbital's coefficient: the third for the P orbitals of an SP shell. */
  function CoeffField(sp: bool, k: nat): nat
  {
    if sp && k > 0 then 2 else 1
  }

  /** Number of fields a data line must split into. */
  function Width(sp: bool): nat
  {
    if sp then 3 else 2
  }

  /** The fields of a data line once Fortran 'D' exponents are rewritten to 'e'. */
  function Fields(line: string): seq<string>
  {
    Words(Replace(line, 'D', 'e'))
  }

  /** One data line: 'D' rewritten to 'e', split, unpacked, then float() of each field in turn. */
  function ReadRow(line: string, sp: bool, toFloat: FloatParser): (r: Result<seq<real>>)
    ensures r.Ok? ==> |r.value| == Width(sp)
  {
    var f := Fields(line);
    if |f| != Width(sp) then Err(UnpackMismatch)
    else if toFloat(f[0]).None? then Err(NotAFloat(f[0]))
    else if toFloat(f[1]).None? then Err(NotAFloat(f[1]))
    else if sp && toFloat(f[2]).None? then Err(NotAFloat(f[2]))
    else if sp then Ok([toFloat(f[0]).value, toFloat(f[1]).value, toFloat(f[2]).value])
    else Ok([toFloat(f[0]).value, toFloat(f[1]).value])
  }

  /**
   * What reading a data line means: it reads exactly when it has the shell's
   * number of fields and float() accepts each of them, and the row is then
   * those floats, in order.  A wrong field count is the unpacking ValueError;
   * otherwise the error is float()'s, for the first field it rejects.
   */
  ghost predicate ReadsAs(line: string, sp: bool, toFloat: FloatParser, r: Result<seq<real>>)
  {
    var f := Fields(line);
    && (r.Ok? <==> |f| == Width(sp) && forall i :: 0 <= i < Width(sp) ==> toFloat(f[i]).Some?)
    && (r.Ok? ==> |r.value| == Width(sp) && forall i :: 0 <= i < Width(sp) ==> r.value[i] == toFloat(f[i]).value)
    && (|f| != Width(sp) ==> r == Err(UnpackMismatch))
    && (forall k :: 0 <= k < Width(sp) == |f| && toFloat(f[k]).None? && (forall j :: 0 <= j < k ==> toFloat(f[j]).Some?) ==>
          r == Err(NotAFloat(f[k])))
  }

  /** ReadRow reads a data line as ReadsAs describes. */
  lemma ReadRowFields(line: string, sp: bool, toFloat: FloatParser)
    ensures ReadsAs(line, sp, toFloat, ReadRow(line, sp, toFloat))
  {
  }

  /** ReadsAs leaves no choice: the one result it admits is ReadRow's. */
  lemma ReadRowDetermined(line: string, sp: bool, toFloat: FloatParser, r: Result<seq<real>>)
    requires ReadsAs(line, sp, toFloat, r)
    ensures r == ReadRow(line, sp, toFloat)
  {
    var f := Fields(line);
    if |f| == Width(sp) {
      if r.Ok? {
        assert r.value == ReadRow(line, sp, toFloat).value;
      } else if toFloat(f[0]).None? {
        assert r == Err(NotAFloat(f[0]));
      } else if toFloat(f[1]).None? {
        assert r == Err(NotAFloat(f[1]));
      } else {
        assert r == Err(NotAFloat(f[2]));
      }
    }
  }

  /** The i-th row of the columns, as ReadRow returns it. */
  function RowAt(cols: Columns, i: nat, sp: bool): seq<real>
    requires i < |cols.exps| && i < |cols.coeffs| && (sp ==> i < |cols.coeffps|)
  {
    if sp then [cols.exps[i], cols.coeffs[i], cols.coeffps[i]] else [cols.exps[i], cols.coeffs[i]]
  }

  datatype RowsRead = Rows(cols: Columns) | Truncated | BadRow(error: Error)

  /**
   * Reading `count` data lines from index `start`: the columns when all are
   * present and well formed, Truncated when the input ends first (after
   * well-formed lines), or the error of the first bad line.
   */
  function ReadRows(lines: seq<string>, start: nat, count: nat, sp: bool, toFloat: FloatParser): (r: RowsRead)
    ensures r.Rows? && count > 0 ==> start + count <= |lines|
    ensures r.Rows? ==> |r.cols.exps| == count && |r.cols.coeffs| == count
    ensures r.Rows? ==> |r.cols.coeffps| == (if sp then count else 0)
    ensures r.Truncated? ==> |lines| < start + count
    decreases count
  {
    if count == 0 then Rows(Columns([], [], []))
    else
      match ReadRows(lines, start, count - 1, sp, toFloat)
      case Rows(c) =>
        if start + count - 1 >= |lines| then Truncated
        else (
          match ReadRow(lines[start + count - 1], sp, toFloat)
          case Err(e) => BadRow(e)
          case Ok(v) =>
            Rows(Columns(c.exps + [v[0]], c.coeffs + [v[1]], if sp then c.coeffps + [v[2]] else c.coeffps)))
      case other => other
  }

  /** The columns hold, row by row, exactly the values of the data lines read. */
  lemma {:induction false} ReadRowsValues(lines: seq<string>, start: nat, count: nat, sp: bool, toFloat: FloatParser)
    requires ReadRows(lines, start, count, sp, toFloat).Rows?
    ensures var cols := ReadRows(lines, start, count, sp, toFloat).cols;
      forall i :: 0 <= i < count ==> ReadRow(lines[start + i], sp, toFloat) == Ok(RowAt(cols, i, sp))
    decreases count
  {
    if count > 0 {
      ReadRowsValues(lines, start, count - 1, sp, toFloat);
      var prev := ReadRows(lines, start, count - 1, sp, toFloat).cols;
      var cols := ReadRows(lines, start, count, sp, toFloat).cols;
      forall i | 0 <= i < count
        ensures ReadRow(lines[start + i], sp, toFloat) == Ok(RowAt(cols, i, sp))
      {
        if i < count - 1 {
          assert RowAt(cols, i, sp) == RowAt(prev, i, sp);
        }
      }
    }
  }

  /** A bad data line stops the read with that line's error; every line before it was well formed. */
  lemma {:induction false} ReadRowsBadLine(lines: seq<string>, start: nat, count: nat, sp: bool, toFloat: FloatParser)
    requires ReadRows(lines, start, count, sp, toFloat).BadRow?
    ensures var e := ReadRows(lines, start, count, sp, toFloat).error;
      exists i :: start <= i < start + count && i < |lines| && ReadRow(lines[i], sp, toFloat) == Err(e) &&
        forall j :: start <= j < i ==> ReadRow(lines[j], sp, toFloat).Ok?
    decreases count
  {
    var prev := ReadRows(lines, start, count - 1, sp, toFloat);
    if prev.BadRow? {
      ReadRowsBadLine(lines, start, count - 1, sp, toFloat);
    } else {
      ReadRowsParsed(lines, start, count - 1, sp, toFloat);
      ReadRowsStep(lines, start, count - 1, sp, toFloat);
      var i := start + count - 1;
      assert ReadRow(lines[i], sp, toFloat).Err?;
    }
  }

  /** Proof step: every line of a completed read parsed. */
  lemma ReadRowsParsed(lines: seq<string>, start: nat, count: nat, sp: bool, toFloat: FloatParser)
    requires ReadRows(lines, start, count, sp, toFloat).Rows?
    ensures forall j :: start <= j < start + count ==> j < |lines| && ReadRow(lines[j], sp, toFloat).Ok?
  {
    var cols := ReadRows(lines, start, count, sp, toFloat).cols;
    ReadRowsValues(lines, start, count, sp, toFloat);
    forall j | start <= j < start + count
      ensures j < |lines| && ReadRow(lines[j], sp, toFloat).Ok?
    {
      assert ReadRow(lines[start + (j - start)], sp, toFloat) == Ok(RowAt(cols, j - start, sp));
    }
  }

  /** Once reading stops (cut short or a bad line), reading more lines gives the same outcome. */
  lemma {:induction false} ReadRowsStops(lines: seq<string>, start: nat, i: nat, k: nat, sp: bool, toFloat: FloatParser)
    requires i <= k
    requires !ReadRows(lines, start, i, sp, toFloat).Rows?
    ensures ReadRows(lines, start, k, sp, toFloat) == ReadRows(lines, start, i, sp, toFloat)
    decreases k
  {
    if k > i {
      ReadRowsStops(lines, start, i, k - 1, sp, toFloat);
    }
  }

  /** Proof step of ReadDataLines: what reading one more line does to a read that has not stopped. */
  lemma ReadRowsStep(lines: seq<string>, start: nat, i: nat, sp: bool, toFloat: FloatParser)
    requires ReadRows(lines, start, i, sp, toFloat).Rows?
    ensures var c := ReadRows(lines, start, i, sp, toFloat).cols;
      var next := ReadRows(lines, start, i + 1, sp, toFloat);
      && (start + i >= |lines| ==> next == Truncated)
      && (start + i < |lines| && ReadRow(lines[start + i], sp, toFloat).Err? ==>
            next == BadRow(ReadRow(lines[start + i], sp, toFloat).error))
      && (start + i < |lines| && ReadRow(lines[start + i], sp, toFloat).Ok? ==>
            var v := ReadRow(lines[start + i], sp, toFloat).value;
            next == Rows(Columns(c.exps + [v[0]], c.coeffs + [v[1]], if sp then c.coeffps + [v[2]] else c.coeffps)))
  {
  }

  /** Proof step of ReadDataLines: one more line, read as ReadsAs describes. */
  lemma ReadRowsNext(lines: seq<string>, start: nat, i: nat, sp: bool, toFloat: FloatParser, row: Result<seq<real>>,
                     exps: seq<real>, coeffs: seq<real>, coeffps: seq<real>)
    requires start + i < |lines| && ReadRows(lines, start, i, sp, toFloat) == Rows(Columns(exps, coeffs, coeffps))
    requires ReadsAs(lines[start + i], sp, toFloat, row)
    ensures var next := ReadRows(lines, start, i + 1, sp, toFloat);
      && (row.Err? ==> next == BadRow(row.error))
      && (row.Ok? ==> |row.value| == Width(sp))
      && (row.Ok? && sp ==> next == Rows(Columns(exps + [row.value[0]], coeffs + [row.value[1]], coeffps + [row.value[2]])))
      && (row.Ok? && !sp ==> next == Rows(Columns(exps + [row.value[0]], coeffs + [row.value[1]], coeffps)))
  {
    ReadRowDetermined(lines[start + i], sp, toFloat, row);
    ReadRowsStep(lines, start, i, sp, toFloat);
  }

  /** When the `count` lines to be read are all there and well formed, the read completes. */
  lemma {:induction false} ReadRowsComplete(lines: seq<string>, start: nat, count: nat, sp: bool, toFloat: FloatParser)
    requires start + count <= |lines|
    requires forall i :: start <= i < start + count ==> ReadRow(lines[i], sp, toFloat).Ok?
    ensures ReadRows(lines, start, count, sp, toFloat).Rows?
    decreases count
  {
    if count > 0 {
      ReadRowsComplete(lines, start, count - 1, sp, toFloat);
    }
  }

  /** ... and it is cut short, with no error, when the input ends first. */
  lemma {:induction false} ReadRowsCutShort(lines: seq<string>, start: nat, count: nat, sp: bool, toFloat: FloatParser)
    requires start <= |lines| < start + count
    requires forall i :: start <= i < |lines| ==> ReadRow(lines[i], sp, toFloat).Ok?
    ensures ReadRows(lines, start, count, sp, toFloat) == Truncated
    decreases count
  {
    if start + count - 1 > |lines| {
      ReadRowsCutShort(lines, start, count - 1, sp, toFloat);
    } else {
      ReadRowsComplete(lines, start, count - 1, sp, toFloat);
    }
  }

  /** A read cut short by the end of the input had parsed every line that exists. */
  lemma {:induction false} ReadRowsTruncated(lines: seq<string>, start: nat, count: nat, sp: bool, toFloat: FloatParser)
    requires ReadRows(lines, start, count, sp, toFloat).Truncated?
    ensures forall i :: start <= i < |lines| ==> ReadRow(lines[i], sp, toFloat).Ok?
    decreases count
  {
    var prev := ReadRows(lines, start, count - 1, sp, toFloat);
    if prev.Truncated? {
      ReadRowsTruncated(lines, start, count - 1, sp, toFloat);
    } else {
      ReadRowsParsed(lines, start, count - 1, sp, toFloat);
    }
  }

  /** The first bad line among those to be read decides the read: it fails with that line's error. */
  lemma ReadRowsFirstBad(lines: seq<string>, start: nat, count: nat, j: nat, sp: bool, toFloat: FloatParser)
    requires j < count && start + j < |lines|
    requires forall i :: start <= i < start + j ==> ReadRow(lines[i], sp, toFloat).Ok?
    requires ReadRow(lines[start + j], sp, toFloat).Err?
    ensures ReadRows(lines, start, count, sp, toFloat) == BadRow(ReadRow(lines[start + j], sp, toFloat).error)
  {
    ReadRowsBadAt(lines, start, j, sp, toFloat);
    ReadRowsStops(lines, start, j + 1, count, sp, toFloat);
  }

  /** Proof step of ReadRowsFirstBad: reading up to and including the first bad line. */
  lemma ReadRowsBadAt(lines: seq<string>, start: nat, j: nat, sp: bool, toFloat: FloatParser)
    requires start + j < |lines|
    requires forall i :: start <= i < start + j ==> ReadRow(lines[i], sp, toFloat).Ok?
    requires ReadRow(lines[start + j], sp, toFloat).Err?
    ensures ReadRows(lines, start, j + 1, sp, toFloat) == BadRow(ReadRow(lines[start + j], sp, toFloat).error)
  {
    ReadRowsComplete(lines, start, j, sp, toFloat);
    ReadRowsStep(lines, start, j, sp, toFloat);
  }

  /** len(range(n)): how many data lines the source reads for a declared NPRIM of n. */
  function Iterations(n: int): nat
  {
    if n < 0 then 0 else n
  }

  datatype ShellRead =
    | Shell(shellType: string, nprim: nat, orbitals: seq<Orbital>, next: nat)
    | Exhausted
    | BadShell(error: Error)

  /**
   * One shell starting at line `pos`: the header "TYPE NPRIM SCALE", then NPRIM
   * data lines.  Exhausted means the input ended (at the header or inside the
   * data lines) and the shell is dropped.
   */
  function ReadShell(lines: seq<string>, pos: nat, toFloat: FloatParser): (r: ShellRead)
    ensures r.Shell? ==> pos < |lines| && r.next == pos + 1 + r.nprim && r.next <= |lines|
  {
    if pos >= |lines| then Exhausted
    else
      var header := Words(lines[pos]);
      if |header| != 3 then BadShell(UnpackMismatch)
      else
        match ParseInt(header[1])
        case None => BadShell(NotAnInteger(header[1]))
        case Some(n) =>
          if header[0] == "F" then BadShell(UnsupportedShell(FShellMessage))
          else
            match ReadRows(lines, pos + 1, Iterations(n), header[0] == "SP", toFloat)
            case Truncated => Exhausted
            case BadRow(e) => BadShell(e)
            case Rows(cols) =>
              if |cols.exps| != n || |cols.coeffs| != n then BadShell(AssertionFailed)
              else Shell(header[0], n, Expand(header[0], n, cols), pos + 1 + n)
  }

  /** A shell read from line `pos` is the expansion of the columns read after its header. */
  lemma ShellParts(lines: seq<string>, pos: nat, toFloat: FloatParser)
    requires ReadShell(lines, pos, toFloat).Shell?
    ensures var r := ReadShell(lines, pos, toFloat);
      var h := Words(lines[pos]);
      var rows := ReadRows(lines, pos + 1, r.nprim, r.shellType == "SP", toFloat);
      && |h| == 3 && h[0] == r.shellType && r.shellType != "F" && ParseInt(h[1]) == Some(r.nprim as int)
      && rows.Rows?
      && r.orbitals == Expand(r.shellType, r.nprim, rows.cols)
  {
  }

  /** Each expanded orbital has its component's type and angular triple, n as contraction count, and the origin as centre. */
  lemma ExpandShape(shellType: string, n: nat, cols: Columns)
    requires |cols.exps| == n && |cols.coeffs| == n && (shellType == "SP" ==> |cols.coeffps| == n)
    ensures var os := Expand(shellType, n, cols);
      && |os| == |Components(shellType)|
      && forall k :: 0 <= k < |os| ==>
           && os[k].orbitalType == Components(shellType)[k]
           && os[k].angular == AngularQuanta(os[k].orbitalType)
           && os[k].contractNum == n
           && os[k].exponents == cols.exps
           && os[k].coeffs == CoeffColumn(shellType, k, cols)
           && |os[k].coeffs| == n
           && os[k].centre == Origin
  {
  }

  /**
   * A shell read from line `pos`: its header has three fields, a type other
   * than F and NPRIM as an integer; it consumes the header plus NPRIM data
   * lines and yields the type's components, each with NPRIM exponents and
   * coefficients taken column by column from those lines.
   */
  lemma ShellShape(lines: seq<string>, pos: nat, toFloat: FloatParser)
    requires ReadShell(lines, pos, toFloat).Shell?
    ensures var r := ReadShell(lines, pos, toFloat);
      var h := Words(lines[pos]);
      && |h| == 3 && h[0] == r.shellType && r.shellType != "F" && ParseInt(h[1]) == Some(r.nprim as int)
      && r.next == pos + 1 + r.nprim
      && |r.orbitals| == |Components(r.shellType)|
      && (forall k :: 0 <= k < |r.orbitals| ==>
           && r.orbitals[k].orbitalType == Components(r.shellType)[k]
           && r.orbitals[k].angular == AngularQuanta(r.orbitals[k].orbitalType)
           && r.orbitals[k].contractNum == r.nprim
           && |r.orbitals[k].exponents| == r.nprim
           && |r.orbitals[k].coeffs| == r.nprim
           && r.orbitals[k].centre == Origin)
  {
    var r := ReadShell(lines, pos, toFloat);
    ShellParts(lines, pos, toFloat);
    ExpandShape(r.shellType, r.nprim, ReadRows(lines, pos + 1, r.nprim, r.shellType == "SP", toFloat).cols);
  }

  /**
   * Row by row, the i-th data line of a shell holds the i-th exponent of every
   * orbital, then the i-th coefficient: the second field for S, P and D
   * orbitals and for the S of an SP shell, the third for the P orbitals of an SP shell.
   */
  lemma ShellRows(lines: seq<string>, pos: nat, toFloat: FloatParser)
    requires ReadShell(lines, pos, toFloat).Shell?
    ensures var r := ReadShell(lines, pos, toFloat);
      var sp := r.shellType == "SP";
      var data := lines[pos + 1 .. r.next];
      && |data| == r.nprim
      && forall i :: 0 <= i < |data| ==>
           && ReadRow(data[i], sp, toFloat).Ok?
           && forall k :: 0 <= k < |r.orbitals| ==>
                && ReadRow(data[i], sp, toFloat).value[0] == r.orbitals[k].exponents[i]
                && ReadRow(data[i], sp, toFloat).value[CoeffField(sp, k)] == r.orbitals[k].coeffs[i]
  {
    var r := ReadShell(lines, pos, toFloat);
    ShellParts(lines, pos, toFloat);
    var sp := r.shellType == "SP";
    var cols := ReadRows(lines, pos + 1, r.nprim, sp, toFloat).cols;
    ExpandShape(r.shellType, r.nprim, cols);
    ShellData(lines, pos, toFloat);
  }

  /** Proof step of ShellRows: the data lines read back as the rows of the columns. */
  lemma ShellData(lines: seq<string>, pos: nat, toFloat: FloatParser)
    requires ReadShell(lines, pos, toFloat).Shell?
    ensures var r := ReadShell(lines, pos, toFloat);
      var sp := r.shellType == "SP";
      var cols := ReadRows(lines, pos + 1, r.nprim, sp, toFloat).cols;
      var data := lines[pos + 1 .. r.next];
      && ReadRows(lines, pos + 1, r.nprim, sp, toFloat).Rows?
      && forall i :: 0 <= i < |data| ==> ReadRow(data[i], sp, toFloat) == Ok(RowAt(cols, i, sp))
  {
    var r := ReadShell(lines, pos, toFloat);
    ShellParts(lines, pos, toFloat);
    RowsData(lines, pos + 1, r.nprim, r.shellType == "SP", toFloat);
  }

  /** ReadRowsValues, over the slice of the lines read. */
  lemma RowsData(lines: seq<string>, start: nat, count: nat, sp: bool, toFloat: FloatParser)
    requires start + count <= |lines|
    requires ReadRows(lines, start, count, sp, toFloat).Rows?
    ensures var cols := ReadRows(lines, start, count, sp, toFloat).cols;
      var data := lines[start .. start + count];
      forall i :: 0 <= i < |data| ==> ReadRow(data[i], sp, toFloat) == Ok(RowAt(cols, i, sp))
  {
    var cols := ReadRows(lines, start, count, sp, toFloat).cols;
    ReadRowsValues(lines, start, count, sp, toFloat);
    var data := lines[start .. start + count];
    forall i | 0 <= i < |data|
      ensures ReadRow(data[i], sp, toFloat) == Ok(RowAt(cols, i, sp))
    {
      assert data[i] == lines[start + i];
    }
  }

  /** The shells from line `pos` to the end of the block, concatenated in input order. */
  function ParseShells(lines: seq<string>, pos: nat, toFloat: FloatParser): Result<seq<Orbital>>
    decreases |lines| - pos
  {
    match ReadShell(lines, pos, toFloat)
    case Exhausted => Ok([])
    case BadShell(e) => Err(e)
    case Shell(_, _, orbitals, next) => Then(orbitals, ParseShells(lines, next, toFloat))
  }

  /** One element's block: the line "SYMBOL 0", then its shells. */
  function ParseBlock(lines: seq<string>, toFloat: FloatParser): Result<(string, seq<Orbital>)>
  {
    if lines == [] then Err(IteratorExhausted)
    else
      var first := Words(lines[0]);
      if |first| != 2 then Err(UnpackMismatch)
      else
        match ParseShells(lines, 1, toFloat)
        case Ok(orbitals) => Ok((first[0], orbitals))
        case Err(e) => Err(e)
  }

  // ------------------------------------------------ properties of the parser

  /**
   * Data lines start .. start + n - 1 exist and line start + i reads as the
   * i-th exponent and coefficient of `o`.
   */
  ghost predicate DataReadsAs(lines: seq<string>, start: nat, n: nat, toFloat: FloatParser, o: Orbital)
  {
    && start + n <= |lines| && |o.exponents| == n && |o.coeffs| == n
    && forall i :: 0 <= i < n ==> ReadRow(lines[start + i], false, toFloat) == Ok([o.exponents[i], o.coeffs[i]])
  }

  /**
   * What an SP shell's n data lines from `start` become: S, Px, Py, Pz; all four
   * share the first column as exponents, S takes the second column and the P
   * orbitals the third.
   */
  ghost predicate SPLayout(lines: seq<string>, start: nat, n: nat, toFloat: FloatParser, os: seq<Orbital>)
  {
    && |os| == 4
    && os[0].orbitalType == S && os[1].orbitalType == Px && os[2].orbitalType == Py && os[3].orbitalType == Pz
    && (forall k :: 1 <= k < 4 ==> os[k].exponents == os[0].exponents && os[k].coeffs == os[1].coeffs)
    && start + n <= |lines| && |os[0].exponents| == n && |os[0].coeffs| == n && |os[1].coeffs| == n
    && forall i :: 0 <= i < n ==>
         ReadRow(lines[start + i], true, toFloat) == Ok([os[0].exponents[i], os[0].coeffs[i], os[1].coeffs[i]])
  }


  /** An S shell gives one AO of type S, carrying the shell's exponents and coefficients. */
  lemma SShellExpansion(lines: seq<string>, pos: nat, toFloat: FloatParser)
    requires ReadShell(lines, pos, toFloat).Shell? && ReadShell(lines, pos, toFloat).shellType == "S"
    ensures var r := ReadShell(lines, pos, toFloat);
      && |r.orbitals| == 1 && r.orbitals[0].orbitalType == S
      && DataReadsAs(lines, pos + 1, r.nprim, toFloat, r.orbitals[0])
  {
    RowsOfShell(lines, pos, toFloat);
  }

  /** A P shell gives Px, Py, Pz, in that order, all with the same exponents and coefficients. */
  lemma PShellExpansion(lines: seq<string>, pos: nat, toFloat: FloatParser)
    requires ReadShell(lines, pos, toFloat).Shell? && ReadShell(lines, pos, toFloat).shellType == "P"
    ensures var r := ReadShell(lines, pos, toFloat);
      && |r.orbitals| == 3
      && r.orbitals[0].orbitalType == Px && r.orbitals[1].orbitalType == Py && r.orbitals[2].orbitalType == Pz
      && r.orbitals[0].exponents == r.orbitals[1].exponents == r.orbitals[2].exponents
      && r.orbitals[0].coeffs == r.orbitals[1].coeffs == r.orbitals[2].coeffs
      && DataReadsAs(lines, pos + 1, r.nprim, toFloat, r.orbitals[0])
  {
    var r := ReadShell(lines, pos, toFloat);
    ShellShape(lines, pos, toFloat);
    ShellParts(lines, pos, toFloat);
    RowsOfShell(lines, pos, toFloat);
  }

  /** A D shell gives Dx2, Dy2, Dz2, Dxy, Dyz, Dzx, in that order, all with the same exponents and coefficients. */
  lemma DShellExpansion(lines: seq<string>, pos: nat, toFloat: FloatParser)
    requires ReadShell(lines, pos, toFloat).Shell? && ReadShell(lines, pos, toFloat).shellType == "D"
    ensures var r := ReadShell(lines, pos, toFloat);
      && |r.orbitals| == 6
      && r.orbitals[0].orbitalType == Dx2 && r.orbitals[1].orbitalType == Dy2 && r.orbitals[2].orbitalType == Dz2
      && r.orbitals[3].orbitalType == Dxy && r.orbitals[4].orbitalType == Dyz && r.orbitals[5].orbitalType == Dzx
      && forall k :: 0 <= k < 6 ==>
           r.orbitals[k].exponents == r.orbitals[0].exponents && r.orbitals[k].coeffs == r.orbitals[0].coeffs
  {
    var r := ReadShell(lines, pos, toFloat);
    ShellParts(lines, pos, toFloat);
    DTemplates(r.orbitals, r.nprim, ReadRows(lines, pos + 1, r.nprim, false, toFloat).cols);
  }

  /** Proof step of DShellExpansion: the D templates' types, in order, and their shared columns. */
  lemma DTemplates(os: seq<Orbital>, n: int, cols: Columns)
    requires os == Expand("D", n, cols)
    ensures && |os| == 6
      && os[0].orbitalType == Dx2 && os[1].orbitalType == Dy2 && os[2].orbitalType == Dz2
      && os[3].orbitalType == Dxy && os[4].orbitalType == Dyz && os[5].orbitalType == Dzx
      && forall k :: 0 <= k < 6 ==> os[k].exponents == os[0].exponents && os[k].coeffs == os[0].coeffs
  {
    ExpandD(n, cols);
  }

  /** Proof step of SPShellExpansion: the four SP templates, written out. */
  lemma ExpandSP(n: int, cols: Columns)
    ensures Expand("SP", n, cols) == [
      Template(S, n, cols.exps, cols.coeffs), Template(Px, n, cols.exps, cols.coeffps),
      Template(Py, n, cols.exps, cols.coeffps), Template(Pz, n, cols.exps, cols.coeffps)]
  {
    assert Components("SP") == [S, Px, Py, Pz];
  }

  /** Proof step of DShellExpansion: the six D templates, written out. */
  lemma ExpandD(n: int, cols: Columns)
    ensures var e, c := cols.exps, cols.coeffs;
      Expand("D", n, cols) == [
        Template(Dx2, n, e, c), Template(Dy2, n, e, c), Template(Dz2, n, e, c),
        Template(Dxy, n, e, c), Template(Dyz, n, e, c), Template(Dzx, n, e, c)]
  {
    assert Components("D") == [Dx2, Dy2, Dz2, Dxy, Dyz, Dzx];
  }

  /**
   * An SP shell gives S then Px, Py, Pz: all take the first column as exponents,
   * S takes the second column and the P orbitals the third.
   */
  lemma SPShellExpansion(lines: seq<string>, pos: nat, toFloat: FloatParser)
    requires ReadShell(lines, pos, toFloat).Shell? && ReadShell(lines, pos, toFloat).shellType == "SP"
    ensures var r := ReadShell(lines, pos, toFloat);
      SPLayout(lines, pos + 1, r.nprim, toFloat, r.orbitals)
  {
    var r := ReadShell(lines, pos, toFloat);
    ShellParts(lines, pos, toFloat);
    SPRows(lines, pos + 1, r.nprim, toFloat, r.orbitals);
  }

  /** Proof step of SPShellExpansion: the SP templates, and the data lines read back through them. */
  lemma SPRows(lines: seq<string>, start: nat, n: nat, toFloat: FloatParser, os: seq<Orbital>)
    requires start + n <= |lines|
    requires ReadRows(lines, start, n, true, toFloat).Rows?
    requires os == Expand("SP", n, ReadRows(lines, start, n, true, toFloat).cols)
    ensures SPLayout(lines, start, n, toFloat, os)
  {
    var cols := ReadRows(lines, start, n, true, toFloat).cols;
    ReadRowsValues(lines, start, n, true, toFloat);
    SPTemplates(os, n, cols);
    forall i | 0 <= i < n
      ensures ReadRow(lines[start + i], true, toFloat) == Ok([os[0].exponents[i], os[0].coeffs[i], os[1].coeffs[i]])
    {
      assert ReadRow(lines[start + i], true, toFloat) == Ok(RowAt(cols, i, true));
    }
  }


  /** Proof step of SPShellExpansion: the SP templates' types, in order, and the columns each takes. */
  lemma SPTemplates(os: seq<Orbital>, n: int, cols: Columns)
    requires os == Expand("SP", n, cols)
    ensures && |os| == 4
      && os[0].orbitalType == S && os[1].orbitalType == Px && os[2].orbitalType == Py && os[3].orbitalType == Pz
      && os[0].exponents == cols.exps && os[0].coeffs == cols.coeffs && os[1].coeffs == cols.coeffps
      && forall k :: 1 <= k < 4 ==> os[k].exponents == os[0].exponents && os[k].coeffs == os[1].coeffs
  {
    ExpandSP(n, cols);
  }

  /**
   * Proof step of the S and P expansions: for a shell other than SP, data line
   * i reads as the i-th exponent and coefficient of the first orbital.
   */
  lemma RowsOfShell(lines: seq<string>, pos: nat, toFloat: FloatParser)
    requires ReadShell(lines, pos, toFloat).Shell? && ReadShell(lines, pos, toFloat).shellType != "SP"
    requires |ReadShell(lines, pos, toFloat).orbitals| > 0
    ensures var r := ReadShell(lines, pos, toFloat);
      DataReadsAs(lines, pos + 1, r.nprim, toFloat, r.orbitals[0])
  {
    var r := ReadShell(lines, pos, toFloat);
    ShellParts(lines, pos, toFloat);
    FirstRows(lines, pos + 1, r.nprim, toFloat, r.shellType, r.orbitals);
  }

  /** Proof step of RowsOfShell: outside SP, the data lines read back through the first template. */
  lemma FirstRows(lines: seq<string>, start: nat, n: nat, toFloat: FloatParser, shellType: string, os: seq<Orbital>)
    requires start + n <= |lines|
    requires ReadRows(lines, start, n, false, toFloat).Rows?
    requires shellType != "SP" && os == Expand(shellType, n, ReadRows(lines, start, n, false, toFloat).cols) && |os| > 0
    ensures DataReadsAs(lines, start, n, toFloat, os[0])
  {
    var cols := ReadRows(lines, start, n, false, toFloat).cols;
    ReadRowsValues(lines, start, n, false, toFloat);
    ExpandFirst(shellType, n, cols);
    forall i | 0 <= i < n
      ensures ReadRow(lines[start + i], false, toFloat) == Ok([os[0].exponents[i], os[0].coeffs[i]])
    {
      assert ReadRow(lines[start + i], false, toFloat) == Ok(RowAt(cols, i, false));
    }
  }


  /** Proof step of RowsOfShell: outside SP, the first template carries the exponent and coefficient columns. */
  lemma ExpandFirst(shellType: string, n: int, cols: Columns)
    requires shellType != "SP" && |Expand(shellType, n, cols)| > 0
    ensures Expand(shellType, n, cols)[0].exponents == cols.exps
    ensures Expand(shellType, n, cols)[0].coeffs == cols.coeffs
  {
  }

  /** A header of type F is an error whatever follows it, always one Python reports as ValueError. */
  lemma FShellRejected(lines: seq<string>, pos: nat, toFloat: FloatParser)
    requires pos < |lines| && |Words(lines[pos])| > 0 && Words(lines[pos])[0] == "F"
    ensures ReadShell(lines, pos, toFloat).BadShell?
    ensures ReadShell(lines, pos, toFloat).error.IsValueError()
    ensures ParseShells(lines, pos, toFloat).Err?
    ensures |Words(lines[pos])| == 3 && ParseInt(Words(lines[pos])[1]).Some? ==>
      ParseShells(lines, pos, toFloat) == Err(UnsupportedShell(FShellMessage))
  {
  }

  /** A header line with the wrong number of fields, or a non-integer NPRIM, is a ValueError. */
  lemma BadHeaderRejected(lines: seq<string>, pos: nat, toFloat: FloatParser)
    requires pos < |lines|
    requires |Words(lines[pos])| != 3 || ParseInt(Words(lines[pos])[1]).None?
    ensures ParseShells(lines, pos, toFloat).Err? && ParseShells(lines, pos, toFloat).error.IsValueError()
  {
  }

  /**
   * A data line of the shell that is reached and malformed raises, before the
   * end of the block is looked for: a wrong field count is the unpacking
   * ValueError, and any other bad line raises float()'s ValueError.
   */
  lemma BadDataLineRejected(lines: seq<string>, pos: nat, toFloat: FloatParser, n: int, j: nat)
    requires pos < |lines| && |Words(lines[pos])| == 3 && Words(lines[pos])[0] != "F"
    requires ParseInt(Words(lines[pos])[1]) == Some(n) && j < n && pos + 1 + j < |lines|
    requires var sp := Words(lines[pos])[0] == "SP";
      && (forall i :: pos < i < pos + 1 + j ==> ReadRow(lines[i], sp, toFloat).Ok?)
      && ReadRow(lines[pos + 1 + j], sp, toFloat).Err?
    ensures var sp := Words(lines[pos])[0] == "SP";
      && ParseShells(lines, pos, toFloat) == Err(ReadRow(lines[pos + 1 + j], sp, toFloat).error)
      && ParseShells(lines, pos, toFloat).error.IsValueError()
      && (|Fields(lines[pos + 1 + j])| != Width(sp) ==> ParseShells(lines, pos, toFloat) == Err(UnpackMismatch))
  {
    var sp := Words(lines[pos])[0] == "SP";
    ReadRowsFirstBad(lines, pos + 1, Iterations(n), j, sp, toFloat);
    ReadRowFields(lines[pos + 1 + j], sp, toFloat);
  }

  /**
   * A three-field header other than F with an integer NPRIM >= 0, followed by
   * NPRIM well-formed data lines, reads as a shell of that type and count
   * that ends after its last data line.
   */
  lemma ShellComplete(lines: seq<string>, pos: nat, toFloat: FloatParser, n: nat)
    requires pos < |lines| && |Words(lines[pos])| == 3 && Words(lines[pos])[0] != "F"
    requires ParseInt(Words(lines[pos])[1]) == Some(n as int) && pos + 1 + n <= |lines|
    requires forall i :: pos < i < pos + 1 + n ==> ReadRow(lines[i], Words(lines[pos])[0] == "SP", toFloat).Ok?
    ensures var r := ReadShell(lines, pos, toFloat);
      r.Shell? && r.shellType == Words(lines[pos])[0] && r.nprim == n && r.next == pos + 1 + n
  {
    ReadRowsComplete(lines, pos + 1, n, Words(lines[pos])[0] == "SP", toFloat);
  }

  /** A negative NPRIM reads no data lines and then fails the source's length assertion. */
  lemma NegativeCountAsserts(lines: seq<string>, pos: nat, toFloat: FloatParser, n: int)
    requires pos < |lines| && |Words(lines[pos])| == 3 && Words(lines[pos])[0] != "F"
    requires ParseInt(Words(lines[pos])[1]) == Some(n) && n < 0
    ensures ParseShells(lines, pos, toFloat) == Err(AssertionFailed)
  {
  }

  /** A final shell whose data lines run past the end of the block is dropped, with no error. */
  lemma TruncatedShellDropped(lines: seq<string>, pos: nat, toFloat: FloatParser, n: int)
    requires pos < |lines| && |Words(lines[pos])| == 3 && Words(lines[pos])[0] != "F"
    requires ParseInt(Words(lines[pos])[1]) == Some(n) && |lines| < pos + 1 + n
    requires forall i :: pos < i < |lines| ==> ReadRow(lines[i], Words(lines[pos])[0] == "SP", toFloat).Ok?
    ensures ParseShells(lines, pos, toFloat) == Ok([])
  {
    ReadRowsCutShort(lines, pos + 1, Iterations(n), Words(lines[pos])[0] == "SP", toFloat);
  }

  /** The AO record's invariant: every template holds NPRIM exponents and NPRIM coefficients. */
  ghost predicate WellFormed(o: Orbital)
  {
    && o.contractNum >= 0
    && |o.exponents| == o.contractNum
    && |o.coeffs| == o.contractNum
    && o.centre == Origin
    && o.angular == AngularQuanta(o.orbitalType)
  }

  lemma {:induction false} ParseShellsWellFormed(lines: seq<string>, pos: nat, toFloat: FloatParser)
    requires ParseShells(lines, pos, toFloat).Ok?
    ensures forall o :: o in ParseShells(lines, pos, toFloat).value ==> WellFormed(o)
    decreases |lines| - pos
  {
    var r := ReadShell(lines, pos, toFloat);
    if r.Shell? {
      ShellShape(lines, pos, toFloat);
      ParseShellsWellFormed(lines, r.next, toFloat);
      forall o | o in ParseShells(lines, pos, toFloat).value
        ensures WellFormed(o)
      {
        var rest := ParseShells(lines, r.next, toFloat).value;
        assert ParseShells(lines, pos, toFloat).value == r.orbitals + rest;
        if o in r.orbitals {
          var k :| 0 <= k < |r.orbitals| && r.orbitals[k] == o;
        } else {
          assert o in rest;
        }
      }
    }
  }

  /** Parsing a block gives the symbol of its first line and only well-formed templates. */
  lemma ParseBlockWellFormed(lines: seq<string>, toFloat: FloatParser)
    requires ParseBlock(lines, toFloat).Ok?
    ensures |lines| > 0 && ParseBlock(lines, toFloat).value.0 == Words(lines[0])[0]
    ensures forall o :: o in ParseBlock(lines, toFloat).value.1 ==> WellFormed(o)
  {
    ParseShellsWellFormed(lines, 1, toFloat);
  }

  // ------------------------------------------------------ the block parser

  /**
   * parse_basis_lines: a header-by-header loop over the block's lines that
   * grows `orbitals` in place, shell by shell.
   */
  method ParseBasisLines(lines: seq<string>, toFloat: FloatParser) returns (r: Result<(string, seq<AO>)>)
    ensures r.Err? <==> ParseBlock(lines, toFloat).Err?
    ensures r.Err? ==> r.error == ParseBlock(lines, toFloat).error
    ensures r.Ok? ==> ParseBlock(lines, toFloat) == Ok((r.value.0, Views(r.value.1)))
    ensures r.Ok? ==> (forall i :: 0 <= i < |r.value.1| ==> fresh(r.value.1[i]))
    ensures r.Ok? ==> forall i, j :: 0 <= i < j < |r.value.1| ==> r.value.1[i] != r.value.1[j]
  {
    if |lines| == 0 {
      return Err(IteratorExhausted);
    }
    var first := Words(lines[0]);
    if |first| != 2 {
      return Err(UnpackMismatch);
    }
    var atomSymbol := first[0];
    var orbitals: seq<AO> := [];
    var pos := 1;
    ThenNil(ParseShells(lines, pos, toFloat));
    assert Views(orbitals) == [];
    while true
      invariant 1 <= pos <= |lines|
      invariant ParseShells(lines, 1, toFloat) == Then(Views(orbitals), ParseShells(lines, pos, toFloat))
      invariant forall i :: 0 <= i < |orbitals| ==> fresh(orbitals[i])
      invariant forall i, j :: 0 <= i < j < |orbitals| ==> orbitals[i] != orbitals[j]
      decreases |lines| - pos
    {
      var shell := ReadShellLines(lines, pos, toFloat);
      match shell
      case Ended =>
        assert Views(orbitals) + [] == Views(orbitals);
        return Ok((atomSymbol, orbitals));
      case Raised(e) =>
        return Err(e);
      case Built(aos, next) =>
        ThenThen(Views(orbitals), Views(aos), ParseShells(lines, next, toFloat));
        ViewsAppend(orbitals, aos);
        orbitals := orbitals + aos;
        pos := next;
    }
  }

  /** What one pass of parse_basis_lines' loop body produced. */
  datatype ShellObjects =
    | Built(aos: seq<AO>, next: nat)   // the shell's new AO objects, and the line after its data
    | Ended                            // StopIteration: the shell is dropped and the loop ends
    | Raised(error: Error)             // any other exception, which leaves the function

  /**
   * The body of parse_basis_lines' loop at line `pos`: the header, the data
   * lines, the length assertions and the new AO objects, or what stopped them.
   */
  method ReadShellLines(lines: seq<string>, pos: nat, toFloat: FloatParser) returns (r: ShellObjects)
    ensures var s := ReadShell(lines, pos, toFloat);
      && (r.Ended? <==> s.Exhausted?)
      && (r.Raised? <==> s.BadShell?)
      && (r.Raised? ==> r.error == s.error)
      && (r.Built? ==> s.Shell? && s.orbitals == Views(r.aos) && s.next == r.next)
    ensures r.Built? ==> (forall i :: 0 <= i < |r.aos| ==> fresh(r.aos[i]))
    ensures r.Built? ==> forall i, j :: 0 <= i < j < |r.aos| ==> r.aos[i] != r.aos[j]
  {
    if pos >= |lines| {
      return Ended;
    }
    var header := Words(lines[pos]);
    if |header| != 3 {
      return Raised(UnpackMismatch);
    }
    var shellType := header[0];
    var parsed := ParseInt(header[1]);
    if parsed.None? {
      return Raised(NotAnInteger(header[1]));
    }
    var contractNum := parsed.value;
    if shellType == "F" {
      return Raised(UnsupportedShell(FShellMessage));
    }
    var rows := ReadDataLines(lines, pos + 1, contractNum, shellType == "SP", toFloat);
    if rows.Truncated? {
      return Ended;
    }
    if rows.BadRow? {
      return Raised(rows.error);
    }
    var cols := rows.cols;
    if |cols.exps| != contractNum || |cols.coeffs| != contractNum {
      return Raised(AssertionFailed);
    }
    var aos := NewTemplates(shellType, contractNum, cols);
    return Built(aos, pos + 1 + contractNum);
  }

  /**
   * The inner loop of parse_basis_lines: reads `contractNum` data lines from
   * index `start`, appending to the exps, coeffs and (SP only) coeffps columns.
   * Running out of lines ends the read; a malformed line raises.
   */
  method ReadDataLines(lines: seq<string>, start: nat, contractNum: int, sp: bool, toFloat: FloatParser)
    returns (r: RowsRead)
    ensures r == ReadRows(lines, start, Iterations(contractNum), sp, toFloat)
  {
    var exps: seq<real>, coeffs: seq<real>, coeffps: seq<real> := [], [], [];
    var i := 0;
    while i < contractNum
      invariant 0 <= i <= Iterations(contractNum)
      invariant ReadRows(lines, start, i, sp, toFloat) == Rows(Columns(exps, coeffs, coeffps))
    {
      if start + i >= |lines| {
        ReadRowsStep(lines, start, i, sp, toFloat);
        ReadRowsStops(lines, start, i + 1, Iterations(contractNum), sp, toFloat);
        return Truncated;
      }
      var row := ReadDataLine(lines[start + i], sp, toFloat);
      ReadRowsNext(lines, start, i, sp, toFloat, row, exps, coeffs, coeffps);
      match row
      case Err(e) =>
        ReadRowsStops(lines, start, i + 1, Iterations(contractNum), sp, toFloat);
        return BadRow(e);
      case Ok(v) =>
        exps := exps + [v[0]];
        coeffs := coeffs + [v[1]];
        if sp {
          coeffps := coeffps + [v[2]];
        }
        i := i + 1;
    }
    return Rows(Columns(exps, coeffs, coeffps));
  }

  /** One data line: rewrite 'D' to 'e', split, unpack, then float() of each field in turn. */
  method ReadDataLine(line: string, sp: bool, toFloat: FloatParser) returns (r: Result<seq<real>>)
    ensures ReadsAs(line, sp, toFloat, r)
  {
    var fields := Words(Replace(line, 'D', 'e'));
    if |fields| != Width(sp) {
      return Err(UnpackMismatch);
    }
    var e := toFloat(fields[0]);
    if e.None? {
      return Err(NotAFloat(fields[0]));
    }
    var c := toFloat(fields[1]);
    if c.None? {
      return Err(NotAFloat(fields[1]));
    }
    if sp {
      var cp := toFloat(fields[2]);
      if cp.None? {
        return Err(NotAFloat(fields[2]));
      }
      return Ok([e.value, c.value, cp.value]);
    }
    return Ok([e.value, c.value]);
  }

  /**
   * The if/elif chain of parse_basis_lines: one new AO object per component
   * of the shell type, centred on the origin.
   */
  method NewTemplates(shellType: string, contractNum: int, cols: Columns) returns (aos: seq<AO>)
    ensures Views(aos) == Expand(shellType, contractNum, cols)
    ensures forall i :: 0 <= i < |aos| ==> fresh(aos[i])
    ensures forall i, j :: 0 <= i < j < |aos| ==> aos[i] != aos[j]
  {
    var comps := Components(shellType);
    ghost var shell := Expand(shellType, contractNum, cols);
    aos := [];
    var k := 0;
    while k < |comps|
      invariant 0 <= k <= |comps| && |aos| == k
      invariant Views(aos) == shell[..k]
      invariant forall i :: 0 <= i < |aos| ==> fresh(aos[i])
      invariant forall i, j :: 0 <= i < j < |aos| ==> aos[i] != aos[j]
    {
      ghost var prior := Views(aos);
      var ao := new AO(comps[k], contractNum, cols.exps, CoeffColumn(shellType, k, cols), Origin);
      assert Views(aos) == prior;
      ViewsAppend(aos, [ao]);
      assert Views([ao]) == [shell[k]];
      assert shell[..k + 1] == shell[..k] + [shell[k]];
      aos := aos + [ao];
      k := k + 1;
    }
    assert shell[..k] == shell;
  }

  // ---------------------------------------------------- splitting the text

  /** A line get_basis_set keeps: not empty and not a '!' comment. */
  predicate Kept(line: string)
  {
    line != [] && !StartsWith(line, '!')
  }

  /** The comment- and blank-line filter, keeping the order of the kept lines. */
  function RemoveComments(text: seq<string>): (r: seq<string>)
    ensures forall l :: l in r <==> l in text && Kept(l)
  {
    if text == [] then []
    else (if Kept(text[0]) then [text[0]] else []) + RemoveComments(text[1..])
  }

  lemma {:induction false} RemoveCommentsAppend(a: seq<string>, b: seq<string>)
    ensures RemoveComments(a + b) == RemoveComments(a) + RemoveComments(b)
  {
    if a != [] {
      assert (a + b)[1..] == a[1..] + b;
      RemoveCommentsAppend(a[1..], b);
    } else {
      assert a + b == b;
    }
  }

  /** The element-symbol to AO-template map, as values. */
  type Table = map<string, seq<Orbital>>

  /** The splitter's state: the lines collected since the last '*' line and the map built so far. */
  datatype Scan =
    | Scanning(buffer: seq<string>, table: Table)
    | Stopped(outcome: Result<Option<Table>>)

  /** One kept line: a '*' line parses the buffer and resets it; any other line is collected. */
  function ScanLine(st: Scan, line: string, toFloat: FloatParser): Scan
  {
    match st
    case Stopped(_) => st
    case Scanning(buffer, table) =>
      if StartsWith(line, '*') then
        match ParseBlock(buffer, toFloat)
        case Ok((symbol, orbitals)) => Scanning([], table[symbol := orbitals])
        case Err(e) => Stopped(if e.IsValueError() then Ok(None) else Err(e))
      else Scanning(buffer + [line], table)
  }

  function ScanLines(lines: seq<string>, toFloat: FloatParser): Scan
  {
    if lines == [] then Scanning([], map[])
    else ScanLine(ScanLines(lines[..|lines| - 1], toFloat), lines[|lines| - 1], toFloat)
  }

  /**
   * get_basis_set on the response's lines: Ok(Some(map)) when every block
   * parses, Ok(None) when a block raises ValueError, Err for any other exception.
   */
  function BasisSetOf(text: seq<string>, toFloat: FloatParser): Result<Option<Table>>
  {
    match ScanLines(RemoveComments(text), toFloat)
    case Scanning(_, table) => Ok(Some(table))
    case Stopped(outcome) => outcome
  }

  lemma ScanLinesSnoc(lines: seq<string>, line: string, toFloat: FloatParser)
    ensures ScanLines(lines + [line], toFloat) == ScanLine(ScanLines(lines, toFloat), line, toFloat)
  {
    assert (lines + [line])[..|lines|] == lines;
  }

  /** After a failure nothing further is parsed: there is no partial map. */
  lemma {:induction false} StoppedAbsorbs(lines: seq<string>, more: seq<string>, toFloat: FloatParser)
    requires ScanLines(lines, toFloat).Stopped?
    ensures ScanLines(lines + more, toFloat) == ScanLines(lines, toFloat)
    decreases |more|
  {
    if more == [] {
      assert lines + more == lines;
    } else {
      var init := more[..|more| - 1];
      StoppedAbsorbs(lines, init, toFloat);
      assert lines + more == (lines + init) + [more[|more| - 1]];
      ScanLinesSnoc(lines + init, more[|more| - 1], toFloat);
    }
  }

  /** Lines that are not '*' lines only grow the buffer. */
  lemma {:induction false} BufferGrows(lines: seq<string>, more: seq<string>, toFloat: FloatParser)
    requires ScanLines(lines, toFloat).Scanning?
    requires forall i :: 0 <= i < |more| ==> !StartsWith(more[i], '*')
    ensures ScanLines(lines + more, toFloat) ==
      Scanning(ScanLines(lines, toFloat).buffer + more, ScanLines(lines, toFloat).table)
    decreases |more|
  {
    var st := ScanLines(lines, toFloat);
    if more == [] {
      assert lines + more == lines;
      assert st.buffer + more == st.buffer;
    } else {
      var init := more[..|more| - 1];
      BufferGrows(lines, init, toFloat);
      assert lines + more == (lines + init) + [more[|more| - 1]];
      ScanLinesSnoc(lines + init, more[|more| - 1], toFloat);
      assert st.buffer + init + [more[|more| - 1]] == st.buffer + more;
    }
  }

  /** Lines after the last '*' line are never parsed: appending them changes nothing. */
  lemma TrailingLinesIgnored(text: seq<string>, tail: seq<string>, toFloat: FloatParser)
    requires forall i :: 0 <= i < |tail| ==> !StartsWith(tail[i], '*')
    ensures BasisSetOf(text + tail, toFloat) == BasisSetOf(text, toFloat)
  {
    var a, b := RemoveComments(text), RemoveComments(tail);
    RemoveCommentsAppend(text, tail);
    assert forall i :: 0 <= i < |b| ==> b[i] in tail;
    if ScanLines(a, toFloat).Stopped? {
      StoppedAbsorbs(a, b, toFloat);
    } else {
      BufferGrows(a, b, toFloat);
    }
  }

  /** Blank lines and '!' lines are ignored wherever they stand. */
  lemma CommentLinesIgnored(before: seq<string>, line: string, after: seq<string>, toFloat: FloatParser)
    requires !Kept(line)
    ensures BasisSetOf(before + [line] + after, toFloat) == BasisSetOf(before + after, toFloat)
  {
    RemoveCommentsAppend(before + [line], after);
    RemoveCommentsAppend(before, [line]);
    RemoveCommentsAppend(before, after);
    assert RemoveComments([line]) == [];
    assert RemoveComments(before) + [] == RemoveComments(before);
  }

  /** If the first block that raises raises ValueError, the whole result is None, whatever follows it. */
  lemma FailingBlockVoidsAll(text: seq<string>, i: nat, toFloat: FloatParser)
    requires var lines := RemoveComments(text);
      i < |lines| && StartsWith(lines[i], '*') && ScanLines(lines[..i], toFloat).Scanning?
    requires var b := ParseBlock(ScanLines(RemoveComments(text)[..i], toFloat).buffer, toFloat);
      b.Err? && b.error.IsValueError()
    ensures BasisSetOf(text, toFloat) == Ok(None)
  {
    ScanFailed(RemoveComments(text), i, toFloat);
  }

  lemma {:induction false} RemoveCommentsKeepsAll(text: seq<string>)
    requires forall i :: 0 <= i < |text| ==> Kept(text[i])
    ensures RemoveComments(text) == text
  {
    if text != [] {
      RemoveCommentsKeepsAll(text[1..]);
    }
  }

  /** A block's lines: kept, and none of them a '*' line. */
  predicate BlockLines(b: seq<string>)
  {
    forall i :: 0 <= i < |b| ==> Kept(b[i]) && !StartsWith(b[i], '*')
  }

  /** A '*' line closing a block that parses records the block's templates under its symbol. */
  lemma BlockClosed(st: Scan, line: string, toFloat: FloatParser)
    requires st.Scanning? && StartsWith(line, '*') && ParseBlock(st.buffer, toFloat).Ok?
    ensures var (symbol, orbitals) := ParseBlock(st.buffer, toFloat).value;
      ScanLine(st, line, toFloat) == Scanning([], st.table[symbol := orbitals])
  {
  }

  /** Scanning a block's lines and its '*' line from an empty buffer records that block. */
  lemma ScanBlock(lines: seq<string>, b: seq<string>, star: string, toFloat: FloatParser)
    requires ScanLines(lines, toFloat).Scanning? && ScanLines(lines, toFloat).buffer == []
    requires BlockLines(b) && StartsWith(star, '*') && ParseBlock(b, toFloat).Ok?
    ensures var (symbol, orbitals) := ParseBlock(b, toFloat).value;
      ScanLines(lines + b + [star], toFloat) == Scanning([], ScanLines(lines, toFloat).table[symbol := orbitals])
  {
    var st := ScanLines(lines, toFloat);
    BufferGrows(lines, b, toFloat);
    assert [] + b == b;
    ScanLinesSnoc(lines + b, star, toFloat);
    BlockClosed(ScanLines(lines + b, toFloat), star, toFloat);
  }

  /**
   * Two blocks, each closed by a '*' line, give the map of both symbols;
   * when the symbols are equal the later block's orbitals win.
   */
  lemma TwoBlocks(b1: seq<string>, star1: string, b2: seq<string>, star2: string, toFloat: FloatParser)
    requires BlockLines(b1) && BlockLines(b2)
    requires StartsWith(star1, '*') && StartsWith(star2, '*')
    requires ParseBlock(b1, toFloat).Ok? && ParseBlock(b2, toFloat).Ok?
    ensures var (s1, o1) := ParseBlock(b1, toFloat).value;
      var (s2, o2) := ParseBlock(b2, toFloat).value;
      BasisSetOf(b1 + [star1] + b2 + [star2], toFloat) == Ok(Some(map[s1 := o1][s2 := o2]))
  {
    var l1 := b1 + [star1];
    var text := l1 + b2 + [star2];
    forall i | 0 <= i < |text|
      ensures Kept(text[i])
    {
      if i < |b1| {
        assert text[i] == b1[i];
      } else if i > |b1| && i < |l1| + |b2| {
        assert text[i] == b2[i - |l1|];
      }
    }
    RemoveCommentsKeepsAll(text);
    ScanBlock([], b1, star1, toFloat);
    assert [] + b1 + [star1] == l1;
    ScanBlock(l1, b2, star2, toFloat);
  }

  // --------------------------------------------------------- the splitter

  /** Every AO object held by a basis-set map. */
  ghost function Templates(m: map<string, seq<AO>>): set<AO>
  {
    set s, i | s in m && 0 <= i < |m[s]| :: m[s][i]
  }

  /** The values held by a basis-set map of AO objects. */
  ghost function ViewsOf(m: map<string, seq<AO>>): Table
    reads Templates(m)
  {
    map s | s in m :: Views(m[s])
  }

  /** What a caller of get_basis_set sees: the same error, the same None, or the values of the map. */
  ghost function Observed(r: Result<Option<map<string, seq<AO>>>>): Result<Option<Table>>
    reads if r.Ok? && r.value.Some? then Templates(r.value.value) else {}
  {
    match r
    case Err(e) => Err(e)
    case Ok(None) => Ok(None)
    case Ok(Some(m)) => Ok(Some(ViewsOf(m)))
  }

  /**
   * get_basis_set after the fetch: drop blank and '!' lines, collect lines
   * into a buffer, and at each '*' line parse the buffer into the map.
   */
  method GetBasisSet(text: seq<string>, toFloat: FloatParser) returns (r: Result<Option<map<string, seq<AO>>>>)
    ensures Observed(r) == BasisSetOf(text, toFloat)
    ensures r.Ok? && r.value.Some? ==> forall x :: x in Templates(r.value.value) ==> fresh(x)
  {
    var lines := RemoveComments(text);
    var basisSet: map<string, seq<AO>> := map[];
    var basisLines: seq<string> := [];
    ghost var table: Table := map[];
    for i := 0 to |lines|
      invariant ScanLines(lines[..i], toFloat) == Scanning(basisLines, table)
      invariant basisSet.Keys == table.Keys
      invariant forall s :: s in basisSet ==> Views(basisSet[s]) == table[s]
      invariant forall x :: x in Templates(basisSet) ==> fresh(x)
    {
      var line := lines[i];
      assert lines[..i + 1] == lines[..i] + [line];
      if StartsWith(line, '*') {
        var parsed := ParseBasisLines(basisLines, toFloat);
        if parsed.Err? {
          ScanFailed(lines, i, toFloat);
          if parsed.error.IsValueError() {
            return Ok(None);
          }
          return Err(parsed.error);
        }
        var (atom, orbitals) := parsed.value;
        ScanClosed(lines[..i], line, toFloat);
        table := table[atom := Views(orbitals)];
        ghost var before := basisSet;
        basisSet := basisSet[atom := orbitals];
        forall x | x in Templates(basisSet)
          ensures fresh(x)
        {
          var k, j :| k in basisSet && 0 <= j < |basisSet[k]| && x == basisSet[k][j];
          if k != atom {
            assert x in Templates(before);
          }
        }
        basisLines := [];
      } else {
        ScanCollected(lines[..i], line, toFloat);
        basisLines := basisLines + [line];
      }
    }
    assert lines[..|lines|] == lines;
    assert ViewsOf(basisSet) == table;
    return Ok(Some(basisSet));
  }

  /** Proof step of GetBasisSet: a '*' line closing a block that parses. */
  lemma ScanClosed(prefix: seq<string>, line: string, toFloat: FloatParser)
    requires ScanLines(prefix, toFloat).Scanning? && StartsWith(line, '*')
    requires ParseBlock(ScanLines(prefix, toFloat).buffer, toFloat).Ok?
    ensures var st := ScanLines(prefix, toFloat);
      var (symbol, orbitals) := ParseBlock(st.buffer, toFloat).value;
      ScanLines(prefix + [line], toFloat) == Scanning([], st.table[symbol := orbitals])
  {
    ScanLinesSnoc(prefix, line, toFloat);
    BlockClosed(ScanLines(prefix, toFloat), line, toFloat);
  }

  /** Proof step of GetBasisSet: any line but a '*' line is collected into the buffer. */
  lemma ScanCollected(prefix: seq<string>, line: string, toFloat: FloatParser)
    requires ScanLines(prefix, toFloat).Scanning? && !StartsWith(line, '*')
    ensures var st := ScanLines(prefix, toFloat);
      ScanLines(prefix + [line], toFloat) == Scanning(st.buffer + [line], st.table)
  {
    ScanLinesSnoc(prefix, line, toFloat);
  }

  /** Proof step of GetBasisSet: a '*' line closing a block that raises ends the scan with that outcome. */
  lemma ScanFailed(lines: seq<string>, i: nat, toFloat: FloatParser)
    requires i < |lines| && StartsWith(lines[i], '*') && ScanLines(lines[..i], toFloat).Scanning?
    requires ParseBlock(ScanLines(lines[..i], toFloat).buffer, toFloat).Err?
    ensures var e := ParseBlock(ScanLines(lines[..i], toFloat).buffer, toFloat).error;
      ScanLines(lines, toFloat) == Stopped(if e.IsValueError() then Ok(None) else Err(e))
  {
    var pre, post := lines[..i + 1], lines[i + 1..];
    var st := ScanLines(lines[..i], toFloat);
    TakeSnoc(lines, i);
    ScanLinesSnoc(lines[..i], lines[i], toFloat);
    BlockFailed(st, lines[i], toFloat);
    StoppedAbsorbs(pre, post, toFloat);
    TakeDrop(lines, i + 1);
  }

  /** A '*' line closing a block that raises stops the scan: None for a ValueError, the exception otherwise. */
  lemma BlockFailed(st: Scan, line: string, toFloat: FloatParser)
    requires st.Scanning? && StartsWith(line, '*') && ParseBlock(st.buffer, toFloat).Err?
    ensures var e := ParseBlock(st.buffer, toFloat).error;
      ScanLine(st, line, toFloat) == Stopped(if e.IsValueError() then Ok(None) else Err(e))
  {
  }
}
