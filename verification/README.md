# QuantumPlayground core in Dafny

This project models the core of QuantumPlayground, a small Python package that builds molecular orbitals out of Gaussian basis sets. It covers two parts:

- **The basis-set reader** (`playground/basis_set.py`).
  - The `AO` record is an atomic orbital: a contracted Cartesian Gaussian with an orbital type, a contraction count, exponents, coefficients, a centre and an angular triple.
  - The per-element parser `parse_basis_lines` reads one "gaussian94" block. The block starts with a `SYMBOL 0` line. Then come shells: a header `TYPE NPRIM SCALE` followed by NPRIM data lines.
  - The splitter part of `get_basis_set` drops blank and `!` lines. It cuts the text into blocks at `*` lines and maps each element symbol to its AO templates.
- **The molecule** (`playground/__init__.py`).
  - `Atom` looks up its atomic number and name in the elements table.
  - `Molecule` keeps atoms by id and bond orders by `"id1 id2"` key, both in insertion order.
  - `Molecule` derives `n_electrons`, `orbitals`, `coordinates`, `atom_types` and `bonds`.
  - `apply_basis_set` gives every atom a deep copy of its element's templates, moved onto the atom's centre.

The files are:

- `outcomes.dfy`: module `Outcomes`. Python signals failure by raising an exception. The model returns the exception as a value instead: `Result`, `Outcome`, and an `Error` with one constructor per exception cause. `IsValueError` groups the causes that Python reports as `ValueError`.
- `text.dfy`: module `Text`. It models the string operations the parser and the bond code rely on:
  - `str.split()` with no argument, including Python's full set of whitespace characters;
  - `str.replace` of one character and `str.startswith`;
  - `int()` of a token.
  - It also models `" ".join`, which the core never calls. It describes how a bond key `"id1 id2"` is written, and is used only by the lemmas `WordsOfJoin` and `BondOfJoin`.
- `basis_set.dfy`: module `BasisSet`. Each operation has a pure specification: `ReadRow`, `ReadRows`, `ReadShell`, `ParseShells`, `ParseBlock`, `ScanLines` and `BasisSetOf`.
  - The imperative procedures `ParseBasisLines` and `GetBasisSet` loop over the lines as the source does. They are proved to compute those specifications.
  - `AO` is a class whose only mutable field is `centre`. `Views` maps a list of AO objects to their values.
- `molecule.dfy`: module `Playground`. It holds the `Atom` and `Molecule` classes, bond resolution, and the orbital assembly.
  - The assembly covers the deep copy with its memo, re-centring in place, and the no-sharing guarantee between atoms.

Python's `float()` is the parameter `toFloat: string -> Option<real>`, where `None` stands for its `ValueError`. The elements table of `playground/utils` is the parameter `elements`. The HTTP fetch is replaced by its result: the response text, already split into lines.

Behaviour of the code worth noting:

- **Truncated shells.** A last shell whose data lines run past the end of the block raises `StopIteration` inside the `try` of `parse_basis_lines`. The `except StopIteration: break` at `playground/basis_set.py:113-114` catches it, so that shell is dropped silently and the earlier shells are kept (`TruncatedShellDropped`). The two length assertions at `playground/basis_set.py:93-94` can fail only for a negative NPRIM, which reads no lines (`NegativeCountAsserts`).
- **Soft failure.** Only a `ValueError` from a block turns the result of `get_basis_set` into `None`. An `AssertionError`, or a `StopIteration` from a block with no lines, escapes as an error. In the model these are `Err(AssertionFailed)` and `Err(IteratorExhausted)`.
- **SP shells.** The S orbital takes the second field of each data line and the P orbitals take the third.

## Model

| member | source | states |
|---|---|---|
| BasisSet.AngularQuantaFaithful | playground/basis_set.py:31 | The angular lookup is injective on the ten orbital types. The degree l+m+n of each triple is 0 for S, 1 for the P types and 2 for the D types. |
| BasisSet.AO.constructor | playground/basis_set.py:13-31 | A new AO holds the given type, contraction count, exponents, coefficients and centre. Its angular triple is the table entry for its type. |
| BasisSet.AO.Copy | playground/__init__.py:28 | The copy that deepcopy makes of an AO has the same value as the original. |
| BasisSet.ReadRow | playground/basis_set.py:81-91 | A data line that reads successfully yields exactly 3 numbers for an SP shell and exactly 2 otherwise. |
| BasisSet.ReadRowFields | playground/basis_set.py:81-91 | A data line reads exactly when, after the D-to-e rewrite, it splits into the shell's number of fields and float() accepts each one. The row is then those floats, in order. A wrong field count is the unpacking ValueError. Otherwise the error is float()'s, for the first field it rejects. |
| BasisSet.ReadRowDetermined | playground/basis_set.py:81-91 | That characterisation admits exactly one result for each line, so it is a complete reference for ReadRow. |
| BasisSet.ReadDataLine | playground/basis_set.py:81-91 | The statements for one data line (rewrite, split, unpack, float() of each field) succeed exactly when the field count is right and float() accepts every field. The values are the floats of the fields, in order. A wrong count raises the unpacking ValueError, and otherwise the first field float() rejects is the error. |
| BasisSet.ReadRows | playground/basis_set.py:80-91 | A completed read of n rows has n exponents and n coefficients, plus n P coefficients for SP and none otherwise. It consumed lines that exist. A read that is cut short means the input ended before the n-th line. |
| BasisSet.ReadRowsValues | playground/basis_set.py:80-91 | After a completed read, data line i parses to exactly row i of the accumulated columns. |
| BasisSet.ReadRowsBadLine | playground/basis_set.py:80-91 | A read that fails carries the error of its first bad line. Every earlier line parsed. |
| BasisSet.ReadRowsStops | playground/basis_set.py:80-91 | Once a read is cut short or hits a bad line, asking for more rows gives the same outcome. |
| BasisSet.ReadRowsComplete | playground/basis_set.py:80-91 | When the n lines to be read exist and each of them parses, the read completes. |
| BasisSet.ReadRowsTruncated | playground/basis_set.py:80-91 | A read cut short by the end of the input met no bad line: every line from the start to the end parses. |
| BasisSet.ReadRowsFirstBad | playground/basis_set.py:80-91 | When the j-th line to be read is the first that does not parse, the read fails with that line's error, however many rows were asked for. |
| BasisSet.ReadRowsCutShort | playground/basis_set.py:80-114 | When the lines parse but fewer than n remain, the read is cut short (StopIteration) and reports no error. |
| BasisSet.ReadShell | playground/basis_set.py:68-112 | A shell that reads successfully starts at an existing header line. The next shell starts NPRIM+1 lines later, within the block. |
| BasisSet.ShellParts | playground/basis_set.py:68-112 | A shell read comes from a three-field header with an integer NPRIM that is not F. Its rows were read completely, and its templates are the expansion of those rows. |
| BasisSet.ExpandShape | playground/basis_set.py:96-112 | Each expanded template has its component's type and angular triple, NPRIM as contraction count, the exponent column, its own coefficient column, and the origin as centre. |
| BasisSet.ShellShape | playground/basis_set.py:68-112 | For every orbital of a shell read: its type is the k-th component of the header's type, it has the header's NPRIM, and it is centred on the origin. |
| BasisSet.ShellRows | playground/basis_set.py:76-112 | For every orbital of a shell read, the i-th exponent is field 1 of the i-th data line. The i-th coefficient is field 2, or field 3 for the P orbitals of an SP shell. |
| BasisSet.ShellData | playground/basis_set.py:80-91 | The data lines of a shell read parse, one by one, to the rows of its columns. |
| BasisSet.RowsData | playground/basis_set.py:80-91 | After a completed read, the slice of lines read parses, line by line, to the rows. |
| BasisSet.SShellExpansion | playground/basis_set.py:96-98 | An S shell gives exactly one AO of type S. Data line i reads as its i-th exponent and i-th coefficient. |
| BasisSet.PShellExpansion | playground/basis_set.py:99-102 | A P shell gives Px, Py, Pz in that order, all with the same exponents and coefficients. Data line i reads as the i-th exponent and i-th coefficient. |
| BasisSet.DShellExpansion | playground/basis_set.py:103-106 | A D shell gives Dx2, Dy2, Dz2, Dxy, Dyz, Dzx in that order, with shared data. |
| BasisSet.SPShellExpansion | playground/basis_set.py:76-112 | An SP shell gives S, Px, Py, Pz. Data line i reads as the i-th exponent, the i-th S coefficient and the i-th P coefficient. All four share the exponents, and the three P orbitals share their coefficients. |
| BasisSet.ShellComplete | playground/basis_set.py:68-112 | A three-field header that is not F, with an integer NPRIM = n >= 0, followed by n data lines that all parse, reads as a shell of that type with n primitives. The next shell starts n+1 lines later. |
| BasisSet.BadDataLineRejected | playground/basis_set.py:68-91 | When a data line of a shell is the first that fails to parse, the whole block fails with that line's ValueError. A wrong field count gives the unpacking ValueError. |
| BasisSet.FShellRejected | playground/basis_set.py:71-73 | An F header makes the block fail with a ValueError, carrying the "not yet supported" message when NPRIM is an integer. |
| BasisSet.BadHeaderRejected | playground/basis_set.py:68-69 | A header without exactly three fields, or with a non-integer NPRIM, fails with a ValueError. |
| BasisSet.NegativeCountAsserts | playground/basis_set.py:80-94 | A negative NPRIM reads no lines and fails the length assertion with AssertionError. |
| BasisSet.TruncatedShellDropped | playground/basis_set.py:80-114 | A final shell whose data lines run past the end of the block is dropped. What was read before it is kept, and no error is raised. |
| BasisSet.ParseShellsWellFormed | playground/basis_set.py:93-94 | Every template the shells produce holds NPRIM exponents and NPRIM coefficients, with NPRIM non-negative. It sits at the origin and carries the angular triple of its type. |
| BasisSet.ParseBlockWellFormed | playground/basis_set.py:63-94 | A parsed block's symbol is the first field of its first line, and all its templates are well formed. |
| BasisSet.ParseBasisLines | playground/basis_set.py:58-115 | The imperative parser fails exactly when the block specification fails, with the same exception. On success it returns the symbol and AO objects whose values are the specified templates. These objects are newly allocated and pairwise distinct. |
| BasisSet.ReadShellLines | playground/basis_set.py:67-113 | One pass of the loop body ends the loop exactly when the specified shell is exhausted (StopIteration). It raises exactly when the shell is bad, with the same exception. Otherwise it builds newly allocated, pairwise distinct AO objects whose values are the shell's templates, and reports where the next header starts. |
| BasisSet.ReadDataLines | playground/basis_set.py:76-91 | The data-line loops of one shell compute ReadRows for the `range(NPRIM)` iterations. |
| BasisSet.NewTemplates | playground/basis_set.py:96-112 | The expansion creates fresh, pairwise distinct AO objects whose values are the shell's expansion. |
| BasisSet.RemoveComments | playground/basis_set.py:137-141 | A line survives the filter exactly when it was in the text and is neither empty nor a `!` line. |
| BasisSet.RemoveCommentsAppend | playground/basis_set.py:137-141 | Filtering distributes over concatenation, so line order is kept. |
| BasisSet.RemoveCommentsKeepsAll | playground/basis_set.py:137-141 | Text made only of kept lines passes through the filter unchanged. |
| BasisSet.StoppedAbsorbs | playground/basis_set.py:148-152 | After a block raises, no later line changes the outcome. No partial map is returned. |
| BasisSet.BufferGrows | playground/basis_set.py:155-156 | Lines that are not `*` lines are appended, in order, to the current block. The map is unchanged. |
| BasisSet.TrailingLinesIgnored | playground/basis_set.py:145-157 | Lines after the last `*` line never affect the result. |
| BasisSet.CommentLinesIgnored | playground/basis_set.py:137-141 | Inserting a blank or `!` line anywhere leaves the result unchanged. |
| BasisSet.FailingBlockVoidsAll | playground/basis_set.py:148-152 | If the first block that raises raises ValueError, the whole result is None, whatever follows. |
| BasisSet.BlockClosed | playground/basis_set.py:147-154 | A `*` line that closes a parsable block records its templates under its symbol and empties the buffer. |
| BasisSet.ScanBlock | playground/basis_set.py:145-156 | A block's lines followed by a `*` line, read from an empty buffer, add exactly that block's entry. |
| BasisSet.TwoBlocks | playground/basis_set.py:145-157 | Two closed blocks give the map of both symbols. When the symbols are equal, the later block wins. |
| BasisSet.GetBasisSet | playground/basis_set.py:137-157 | The imperative splitter's outcome is the specified one. It raises the same error, returns None in the same cases, and otherwise returns a map whose values are the specified map. Every AO object in that map is newly allocated. |
| BasisSet.ScanClosed | playground/basis_set.py:147-154 | Within the splitter loop, a `*` line that closes a parsable block stores it and resets the buffer. |
| BasisSet.ScanCollected | playground/basis_set.py:155-156 | Within the splitter loop, any other line is appended to the buffer. |
| BasisSet.ScanFailed | playground/basis_set.py:148-152 | Within the splitter loop, a block that raises decides the whole result: None for a ValueError, the exception itself otherwise. |
| BasisSet.BlockFailed | playground/basis_set.py:147-152 | A `*` line that closes a block which raises ends the scan: with None for a ValueError, and with the exception otherwise. |
| Text.WordsAreWords | playground/basis_set.py:65 | `split()` returns only non-empty fields that contain no whitespace. |
| Text.WordLenRun | playground/basis_set.py:65 | A field runs up to, and not past, the first whitespace character. |
| Text.WordsOfJoin | playground/__init__.py:61 | Splitting words joined by single spaces gives back exactly those words. |
| Text.Replace | playground/basis_set.py:81 | `replace("D", "e")` keeps the length and rewrites exactly the D characters. |
| Text.ReplaceRemoves | playground/basis_set.py:81 | After the rewrite no D is left, and rewriting again changes nothing. |
| Text.IntRoundTrip | playground/basis_set.py:69 | `int()` reads back every integer that `str()` writes. |
| Text.ParseIntRejectsPoint | playground/basis_set.py:69 | `int()` rejects a token that contains a decimal point, such as "3.0". |
| Playground.Atom.constructor | playground/__init__.py:65-74 | A new atom has the given symbol and centre. Its atomic number and name are the elements-table entry for the symbol, and its orbital list is unset. |
| Playground.NewAtom | playground/__init__.py:65-74 | Creating an atom fails with KeyError exactly when the symbol is not in the elements table. Otherwise the atom is fresh and consistent with the table. |
| Playground.Molecule.constructor | playground/__init__.py:16-24 | The molecule keeps both dicts. `n_electrons` is the sum of the atomic numbers in iteration order. |
| Playground.ElectronCountBySymbol | playground/__init__.py:24 | For atoms made through the elements table, `n_electrons` is determined by the atom types alone. |
| Playground.ElectronCountAppend | playground/__init__.py:24 | The electron count adds up over concatenated atom lists. |
| Playground.WaterElectrons | playground/__init__.py:24 | Two hydrogens and an oxygen hold 10 electrons. |
| Playground.Symbols | playground/__init__.py:52-54 | There is one symbol per atom, in the same order. |
| Playground.Molecule.Atoms | playground/__init__.py:35-36 | Iteration yields one atom per id, in insertion order. This is the order the `atom_types`, `coordinates` and `orbitals` rows use. |
| Playground.Molecule.AtomTypes | playground/__init__.py:52-54 | `atom_types` has one entry per atom in iteration order, namely that atom's symbol. |
| Playground.Molecule.Coordinates | playground/__init__.py:48-50 | `coordinates` has one entry per atom in iteration order, namely that atom's centre. |
| Playground.IndexOf | playground/__init__.py:62 | `list.index` fails exactly when the item is absent. Otherwise it returns a position that holds the item, with no earlier occurrence. |
| Playground.BondsResolved | playground/__init__.py:56-63 | The bonds resolve exactly when every key names two known atom ids. Then the k-th pair holds the first positions of the k-th key's two ids. |
| Playground.BondOfJoin | playground/__init__.py:58-62 | A key written as two ids joined by a space resolves to those ids' positions. |
| Playground.Molecule.Bonds | playground/__init__.py:56-63 | The bonds loop computes the resolution, failure included: unpacking ValueError, or the first id not in the list. |
| Playground.RecentreKeepsShape | playground/__init__.py:29-30 | Re-centring keeps count, order, type, data and angular triple. Only the centre changes. |
| Playground.DeepCopy | playground/__init__.py:28 | The deep copy has the same values and only fresh objects. Because of the memo, two copies are the same object exactly when their templates are. |
| Playground.SetCentres | playground/__init__.py:29-30 | After the inner loop, the orbitals' values are the old values moved onto the new centre. |
| Playground.BindAtom | playground/__init__.py:27-30 | After one iteration, the atom holds fresh AOs whose values are the templates moved onto its centre. |
| Playground.BindNext | playground/__init__.py:27-30 | One iteration binds the atom and keeps the earlier atoms bound. The new AOs are recorded as belonging to that atom. |
| Playground.OwnersSeparate | playground/__init__.py:26-30 | Atoms whose AOs are all recorded as their own share no AO object. |
| Playground.FirstMissing | playground/__init__.py:27-28 | This is the first atom whose symbol the basis set lacks, that is, the KeyError point. |
| Playground.Molecule.ApplyBasisSet | playground/__init__.py:26-30 | Succeeds exactly when every atom type is in the basis set, and otherwise raises KeyError for the first missing one. Every atom before that point holds fresh copies of its element's templates, moved onto its centre. No AO is shared between distinct atoms. The templates are unchanged, and the later atoms are untouched. |
| Playground.AllOrbitalsDefined | playground/__init__.py:41-46 | The `orbitals` property fails exactly when some atom's list is unset. |
| Playground.OrbitalsAfterBinding | playground/__init__.py:26-46 | Once every atom is bound, `orbitals` is each atom's templates moved onto that atom's centre, concatenated in atom order. |
| Playground.Molecule.Orbitals | playground/__init__.py:41-46 | The extend loop computes exactly the concatenation in iteration order. It fails with TypeError at an unset list. |

## Left out

- The HTTP request to the basis-set exchange and the exception raised on a non-success response (`playground/basis_set.py:122-125`) are network I/O. `GetBasisSet` starts from the response text split into lines.
- The logging of the `!` header lines and of the caught ValueError (`playground/basis_set.py:130-135,151`) has no effect on the result.
- `float()` is the parameter `toFloat`. Its decimal and exponent grammar and binary rounding are not modelled.
- `int()` is modelled as an optional sign followed by ASCII decimal digits. Underscores, surrounding whitespace and non-ASCII digits are not accepted. `split()` never leaves surrounding whitespace in a token.
- Evaluating an AO or a molecule at a point (`AO.__call__`, `Gprimitive`, `Molecule.__call__`) is floating-point numerics with numpy.
- `Molecule.__repr__`, `Atom.__repr__`, `AO.__repr__`, the CML reader, the command-line entry point, `playground/plot.py` and `setup.py` are outside the core.
- The `elements` and `angular_quanta` tables live in `playground/utils`, which is not part of this model.
  - `elements` is the parameter `elements`.
  - `angular_quanta` is taken to map each orbital type to its Cartesian exponent triple (`AngularQuanta`).
  - The parser only ever looks up the ten types it creates.
- Bond orders, the values of the bonds dict, are never read by the modelled code. `Dict<string>` keeps them only as strings.
- `Playground.Molecule.Coordinates` returns a sequence of points, not a numpy array.
- Python lets any attribute be reassigned. The model makes every field that the core never reassigns a `const`: all AO fields but `centre`, and all Atom fields but `orbitals`.
- `Playground.Molecule.ApplyBasisSet` describes the atom found missing, and the atoms after it, only when they do not repeat an earlier atom object. A repeated atom is re-bound by the earlier iteration.
- The deep copy also copies the exponent and coefficient lists. Their values are immutable sequences here, so that copy is not visible.
