/** The part of a pandas DataFrame the modelled code relies on: named columns
 *  of cells and a row index that is either the default RangeIndex or a
 *  sequence of labels. Instants are whole seconds since the Unix epoch. */
module Frames {
  import opened Common

  datatype Value = Num(x: real) | Int(n: int) | Instant(t: int) | Text(s: string) | NoneValue

  datatype Index =
    | RangeIndex(rangeName: Option<string>, size: nat)
    | Labels(name: Option<string>, labels: seq<Value>)
  {
    function Length(): nat
    {
      match this
      case RangeIndex(_, n) => n
      case Labels(_, ls) => |ls|
    }

    function Name(): Option<string>
    {
      match this
      case RangeIndex(n, _) => n
      case Labels(n, _) => n
    }

    /** The index as a column of cells, as `reset_index` inserts it. */
    function Values(): (vs: seq<Value>)
      ensures |vs| == Length()
    {
      match this
      case RangeIndex(_, n) => seq(n, i => Int(i))
      case Labels(_, ls) => ls
    }
  }

  datatype Column = Column(name: string, cells: seq<Value>)

  datatype Frame = Frame(columns: seq<Column>, index: Index)

  /** Every column has one cell per row of the index. */
  predicate WellFormed(f: Frame)
  {
    forall i :: 0 <= i < |f.columns| ==> |f.columns[i].cells| == f.index.Length()
  }

  function Names(cols: seq<Column>): (ns: seq<string>)
    ensures |ns| == |cols|
    ensures forall i :: 0 <= i < |cols| ==> ns[i] == cols[i].name
  {
    seq(|cols|, i requires 0 <= i < |cols| => cols[i].name)
  }

  /** Position of the first column called `name`. */
  function Find(cols: seq<Column>, name: string): (r: Option<nat>)
    ensures r.Some? ==> r.value < |cols| && cols[r.value].name == name
    ensures r.Some? ==> forall j :: 0 <= j < r.value ==> cols[j].name != name
    ensures r.None? ==> forall j :: 0 <= j < |cols| ==> cols[j].name != name
  {
    if cols == [] then None
    else if cols[0].name == name then Some(0)
    else match Find(cols[1..], name)
      case None => None
      case Some(k) => Some(k + 1)
  }

  /** Whether more than one column is called `name`. */
  predicate Repeated(cols: seq<Column>, name: string)
  {
    exists i, j :: 0 <= i < j < |cols| && cols[i].name == name && cols[j].name == name
  }

  /** `df[name]`: the cells of the first column called `name`, or KeyError.
   *  Callers that read a label several columns share check `Repeated`
   *  themselves. */
  function Get(f: Frame, name: string): (r: Result<seq<Value>>)
    ensures r.Err? <==> name !in Names(f.columns)
    ensures r.Err? ==> r.error == KeyError(name)
    ensures r.Ok? ==> Find(f.columns, name).Some? && r.value == f.columns[Find(f.columns, name).value].cells
    ensures r.Ok? && WellFormed(f) ==> |r.value| == f.index.Length()
  {
    match Find(f.columns, name)
    case None => Err(KeyError(name))
    case Some(k) => Ok(f.columns[k].cells)
  }

  function RenameOne(m: map<string, string>, name: string): string
  {
    if name in m then m[name] else name
  }

  /** `df.rename(columns=m)`: every column named by a key of `m` takes the
   *  mapped name; cells, order and index are kept. */
  function RenameColumns(f: Frame, m: map<string, string>): (r: Frame)
    ensures r.index == f.index && |r.columns| == |f.columns|
    ensures forall i :: 0 <= i < |f.columns| ==>
      r.columns[i] == Column(RenameOne(m, f.columns[i].name), f.columns[i].cells)
  {
    Frame(seq(|f.columns|, i requires 0 <= i < |f.columns| =>
            Column(RenameOne(m, f.columns[i].name), f.columns[i].cells)),
          f.index)
  }

  /** `df.reset_index()`: the index becomes the first column, named after the
   *  index, or "index" ("level_0" when "index" is taken); the frame gets a
   *  fresh RangeIndex. Inserting a name that is already a column raises
   *  ValueError. */
  function ResetIndexOf(f: Frame): (r: Result<Frame>)
    ensures r.Ok? ==> |r.value.columns| == |f.columns| + 1 && r.value.columns[1..] == f.columns
    ensures r.Ok? ==> r.value.columns[0].cells == f.index.Values()
    ensures r.Ok? ==> r.value.index == RangeIndex(None, f.index.Length())
    ensures r.Ok? ==> r.value.columns[0].name !in Names(f.columns)
    ensures r.Err? ==> r.error == ValueError
    ensures f.index.Name().Some? ==>
      && (r.Ok? <==> f.index.Name().value !in Names(f.columns))
      && (r.Ok? ==> r.value.columns[0].name == f.index.Name().value)
    ensures f.index.Name().None? && "index" !in Names(f.columns) ==>
      r.Ok? && r.value.columns[0].name == "index"
    ensures f.index.Name().None? && "index" in Names(f.columns) ==>
      && (r.Ok? <==> "level_0" !in Names(f.columns))
      && (r.Ok? ==> r.value.columns[0].name == "level_0")
  {
    var name := match f.index.Name()
      case Some(n) => n
      case None => if "index" in Names(f.columns) then "level_0" else "index";
    if name in Names(f.columns) then Err(ValueError)
    else Ok(Frame([Column(name, f.index.Values())] + f.columns, RangeIndex(None, f.index.Length())))
  }

  /** `df.set_index(name)`: the first column called `name` leaves the columns
   *  and becomes the index, named `name`. */
  function SetIndexOf(f: Frame, name: string): (r: Result<Frame>)
    ensures r.Err? <==> name !in Names(f.columns)
    ensures r.Ok? ==> r.value.index.Labels? && r.value.index.name == Some(name)
    ensures r.Err? ==> r.error == KeyError(name)
    ensures r.Ok? ==> |r.value.columns| == |f.columns| - 1
    ensures r.Ok? ==> Get(f, name) == Ok(r.value.index.labels)
    ensures r.Ok? ==>
      var k := Find(f.columns, name).value;
      r.value.columns == f.columns[..k] + f.columns[k + 1..]
  {
    match Find(f.columns, name)
    case None => Err(KeyError(name))
    case Some(k) => Ok(Frame(f.columns[..k] + f.columns[k + 1..], Labels(Some(name), f.columns[k].cells)))
  }

  /** `df[name] = cells`: every column called `name` takes the cells in
   *  place, or, when there is none, the column is appended. */
  function AssignColumn(f: Frame, name: string, cells: seq<Value>): (r: Frame)
    ensures r.index == f.index
    ensures Get(r, name) == Ok(cells)
    ensures |r.columns| == |f.columns| + (if name in Names(f.columns) then 0 else 1)
    ensures forall j :: 0 <= j < |f.columns| && f.columns[j].name != name ==> r.columns[j] == f.columns[j]
    ensures forall j :: 0 <= j < |f.columns| && f.columns[j].name == name ==> r.columns[j] == Column(name, cells)
    ensures name !in Names(f.columns) ==> r.columns[|f.columns|] == Column(name, cells)
  {
    if name in Names(f.columns) then
      var r := Frame(seq(|f.columns|, j requires 0 <= j < |f.columns| =>
                       if f.columns[j].name == name then Column(name, cells) else f.columns[j]), f.index);
      assert Names(r.columns) == Names(f.columns);
      FindSameNames(f.columns, r.columns, name);
      r
    else
      var r := Frame(f.columns + [Column(name, cells)], f.index);
      assert Find(r.columns, name) == Some(|f.columns|) by { FindAppend(f.columns, name, cells); }
      r
  }

  lemma {:induction false} FindAppend(cols: seq<Column>, name: string, cells: seq<Value>)
    requires Find(cols, name).None?
    ensures Find(cols + [Column(name, cells)], name) == Some(|cols|)
  {
    if cols != [] {
      assert (cols + [Column(name, cells)])[1..] == cols[1..] + [Column(name, cells)];
      FindAppend(cols[1..], name, cells);
    }
  }

  /** `Find` looks only at the names. */
  lemma {:induction false} FindSameNames(a: seq<Column>, b: seq<Column>, name: string)
    requires Names(a) == Names(b)
    ensures Find(a, name) == Find(b, name)
  {
    if a != [] {
      assert a[0].name == Names(a)[0] == Names(b)[0] == b[0].name;
      assert Names(a[1..]) == Names(b[1..]) by {
        forall i | 0 <= i < |a| - 1 ensures Names(a[1..])[i] == Names(b[1..])[i] {
          assert Names(a)[i + 1] == Names(b)[i + 1];
        }
      }
      FindSameNames(a[1..], b[1..], name);
    }
  }

  /** `pd.to_datetime(cells, utc=True) + pd.Timedelta(hours=3)`: every instant
   *  moves three hours later; a cell that is not a point in time fails. */
  function ShiftToUtcPlus3(cells: seq<Value>): (r: Result<seq<Value>>)
    ensures r.Ok? <==> forall i :: 0 <= i < |cells| ==> cells[i].Instant?
    ensures r.Err? ==> r.error == ConversionError
    ensures r.Ok? ==> |r.value| == |cells|
    ensures r.Ok? ==> forall i :: 0 <= i < |cells| ==> r.value[i] == Instant(cells[i].t + UTC_PLUS_3)
  {
    if cells == [] then Ok([])
    else if !cells[0].Instant? then Err(ConversionError)
    else match ShiftToUtcPlus3(cells[1..])
      case Err(e) => Err(e)
      case Ok(rest) => Ok([Instant(cells[0].t + UTC_PLUS_3)] + rest)
  }

  /** The shift keeps the order of any two timestamps and keeps distinct ones
   *  distinct. */
  lemma ShiftKeepsOrder(cells: seq<Value>, i: int, j: int)
    requires ShiftToUtcPlus3(cells).Ok?
    requires 0 <= i < |cells| && 0 <= j < |cells|
    ensures ShiftToUtcPlus3(cells).value[i].t < ShiftToUtcPlus3(cells).value[j].t <==> cells[i].t < cells[j].t
    ensures ShiftToUtcPlus3(cells).value[i] == ShiftToUtcPlus3(cells).value[j] <==> cells[i] == cells[j]
  {
  }

  /** A pandas DataFrame that the downloaders change in place
   *  (`inplace=True`, `df[col] = ...`). */
  class DataFrame {
    var value: Frame

    constructor (f: Frame)
      ensures value == f
    {
      value := f;
    }

    /** `df.reset_index(inplace=True)`; on error the frame is unchanged. */
    method ResetIndex() returns (err: Option<Error>)
      modifies this
      ensures match ResetIndexOf(old(value))
        case Ok(g) => value == g && err == None
        case Err(e) => value == old(value) && err == Some(e)
    {
      match ResetIndexOf(value)
      case Ok(g) => value := g; err := None;
      case Err(e) => err := Some(e);
    }

    /** `df.rename(columns=m, inplace=True)` */
    method Rename(m: map<string, string>)
      modifies this
      ensures value == RenameColumns(old(value), m)
    {
      value := RenameColumns(value, m);
    }

    /** `df[name] = cells` */
    method Assign(name: string, cells: seq<Value>)
      modifies this
      ensures value == AssignColumn(old(value), name, cells)
    {
      value := AssignColumn(value, name, cells);
    }

    /** `df.set_index(name, inplace=True)`; on error the frame is unchanged. */
    method SetIndex(name: string) returns (err: Option<Error>)
      modifies this
      ensures match SetIndexOf(old(value), name)
        case Ok(g) => value == g && err == None
        case Err(e) => value == old(value) && err == Some(e)
    {
      match SetIndexOf(value, name)
      case Ok(g) => value := g; err := None;
      case Err(e) => err := Some(e);
    }
  }
}
