/** What both `download_dukascopy` variants share: the calls they make on the
 *  outside world and the shape of frame the Dukascopy client returns. */
module DukascopyCommon {
  import opened Common
  import opened Frames

  /** Calls on collaborators, in the order they are made. Bounds are UTC
   *  instants; None is an open end. */
  datatype Call =
    | FetchBars(symbol: string, timeframe: string, offerSide: string, from: Option<int>, to: Option<int>)
    | WriteParquet(path: string, frame: Frame, withIndex: bool)
    | SaveToPostgres(frame: Frame, table: string)

  /** A frame as `dukascopy_python.fetch` returns it: bars indexed by their
   *  start instants, with an index that `reset_index` exposes as "index" or
   *  "timestamp" and no column already using either name. */
  predicate Conforming(f: Frame)
  {
    && WellFormed(f)
    && f.index.Labels?
    && (f.index.name == None || f.index.name == Some("index") || f.index.name == Some("timestamp"))
    && "index" !in Names(f.columns)
    && "timestamp" !in Names(f.columns)
    && forall i :: 0 <= i < |f.index.labels| ==> f.index.labels[i].Instant?
  }

  /** The frame after the steps both variants share, from a conforming
   *  frame: the bar starts, three hours later, as a first column
   *  "timestamp", then the frame's own columns, over a plain RangeIndex. */
  function Restamped(f: Frame): (r: Frame)
    requires Conforming(f)
    ensures |r.columns| == |f.columns| + 1 && r.columns[1..] == f.columns
    ensures r.columns[0].name == "timestamp"
    ensures |r.columns[0].cells| == |f.index.labels|
    ensures forall i :: 0 <= i < |f.index.labels| ==> r.columns[0].cells[i] == Instant(f.index.labels[i].t + UTC_PLUS_3)
    ensures r.index == RangeIndex(None, |f.index.labels|)
  {
    Frame([Column("timestamp", ShiftToUtcPlus3(f.index.labels).value)] + f.columns, RangeIndex(None, |f.index.labels|))
  }

  /** The column `reset_index` makes of a conforming frame's index. */
  function IndexColumnName(f: Frame): string
  {
    if f.index.Name() == Some("timestamp") then "timestamp" else "index"
  }

  /** The frame after `reset_index` and the rename, before the shift. */
  function Exposed(f: Frame): Frame
    requires Conforming(f)
  {
    Frame([Column("timestamp", f.index.labels)] + f.columns, RangeIndex(None, |f.index.labels|))
  }

  /** `reset_index` on a conforming frame succeeds, putting the bar starts
   *  first. */
  lemma ResetStep(f: Frame)
    requires Conforming(f)
    ensures ResetIndexOf(f) == Ok(Frame([Column(IndexColumnName(f), f.index.labels)] + f.columns,
                                         RangeIndex(None, |f.index.labels|)))
  {
  }

  /** Renaming "index" to "timestamp" names that first column "timestamp". */
  lemma RenameStep(f: Frame)
    requires Conforming(f)
    ensures RenameColumns(Frame([Column(IndexColumnName(f), f.index.labels)] + f.columns, RangeIndex(None, |f.index.labels|)),
                          map["index" := "timestamp"]) == Exposed(f)
  {
    var before := Frame([Column(IndexColumnName(f), f.index.labels)] + f.columns, RangeIndex(None, |f.index.labels|));
    var after := RenameColumns(before, map["index" := "timestamp"]);
    forall i | 1 <= i < |before.columns| ensures after.columns[i] == before.columns[i] {
      assert before.columns[i] == f.columns[i - 1];
      assert Names(f.columns)[i - 1] == f.columns[i - 1].name;
    }
  }

  /** Only the first column of the exposed frame is called "timestamp". */
  lemma TimestampOnlyFirst(f: Frame)
    requires Conforming(f)
    ensures forall j :: 1 <= j < |Exposed(f).columns| ==> Exposed(f).columns[j].name != "timestamp"
    ensures !Repeated(Exposed(f).columns, "timestamp")
  {
    var cols := Exposed(f).columns;
    forall j | 1 <= j < |cols| ensures cols[j].name != "timestamp" {
      assert cols[j] == f.columns[j - 1];
      assert Names(f.columns)[j - 1] == f.columns[j - 1].name;
    }
  }

  /** Reading "timestamp" finds the bar starts, and writing the shifted
   *  instants back gives `Restamped`. */
  lemma AssignStep(f: Frame)
    requires Conforming(f)
    ensures Get(Exposed(f), "timestamp") == Ok(f.index.labels)
    ensures AssignColumn(Exposed(f), "timestamp", ShiftToUtcPlus3(f.index.labels).value) == Restamped(f)
  {
    var named := Exposed(f);
    TimestampOnlyFirst(f);
    assert Find(named.columns, "timestamp") == Some(0);
    var shifted := ShiftToUtcPlus3(f.index.labels).value;
    assert AssignColumn(named, "timestamp", shifted).columns == [Column("timestamp", shifted)] + f.columns;
  }

  /** `df.reset_index(inplace=True)` and `df.rename(columns={"index":
   *  "timestamp"}, inplace=True)`, done in place on `df`. */
  method Expose(df: DataFrame) returns (err: Option<Error>)
    modifies df
    ensures Conforming(old(df.value)) ==> err == None && df.value == Exposed(old(df.value))
    ensures err.Some? ==> err.value == ValueError
  {
    ghost var start := df.value;
    err := df.ResetIndex();
    if err.Some? {
      return;
    }
    df.Rename(map["index" := "timestamp"]);
    if Conforming(start) {
      ResetStep(start);
      RenameStep(start);
    }
  }

  /** `Expose`, then `df["timestamp"] = pd.to_datetime(df["timestamp"],
   *  utc=True) + pd.Timedelta(hours=3)`, done in place on `df`. When several
   *  columns are called "timestamp", `df["timestamp"]` is a frame with
   *  repeated column names, which `pd.to_datetime` refuses with ValueError. */
  method Restamp(df: DataFrame) returns (err: Option<Error>)
    modifies df
    ensures Conforming(old(df.value)) ==> err == None && df.value == Restamped(old(df.value))
    ensures err.None? ==> "timestamp" in Names(df.value.columns)
    ensures err.Some? ==> err.value == ValueError || err.value.KeyError? || err.value == ConversionError
  {
    ghost var start := df.value;
    err := Expose(df);
    if err.Some? {
      return;
    }
    var stamps := Get(df.value, "timestamp");
    if stamps.Err? {
      return Some(stamps.error);
    }
    if Conforming(start) {
      TimestampOnlyFirst(start);
    }
    if Repeated(df.value.columns, "timestamp") {
      return Some(ValueError);
    }
    var shifted := ShiftToUtcPlus3(stamps.value);
    if shifted.Err? {
      return Some(shifted.error);
    }
    df.Assign("timestamp", shifted.value);
    assert Get(df.value, "timestamp").Ok?;
    if Conforming(start) {
      AssignStep(start);
    }
  }
}
