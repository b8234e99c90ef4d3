/** Advancing the watermarks past a batch. */
module CheckpointAdvance {
  import opened Results
  import opened Tables
  import opened Checkpoints
  import opened Outputs
  import Runs
  import Source

  /** A watermark refuses a negative key. */
  predicate Advanceable(tables: seq<TableSpec>, deltas: Deltas)
    requires forall i :: 0 <= i < |tables| ==> tables[i].name in deltas
  {
    forall i :: 0 <= i < |tables| ==> LastPkFits(tables[i], deltas[tables[i].name])
  }

  predicate LastPkFits(t: TableSpec, rows: seq<Row>) {
    rows == [] || Source.PkOf(t, rows[|rows| - 1]) >= 0
  }

  /** `advance_checkpoint`. */
  method AdvanceCheckpoint(before: Checkpoint, deltas: Deltas, tables: seq<TableSpec>) returns (r: Outcome<Checkpoint>)
    requires forall i :: 0 <= i < |tables| ==> tables[i].name in deltas
    ensures r == if Advanceable(tables, deltas) then Done(Runs.Advance(tables, before, deltas)) else Raised(ValueError)
  {
    hide Source.PkOf, Source.TimeOf;
    var cp := before;
    for i := 0 to |tables|
      invariant Advanceable(tables[..i], deltas)
      invariant cp == Runs.Advance(tables[..i], before, deltas)
    {
      var t := tables[i];
      var rows := deltas[t.name];
      assert tables[..i + 1][..i] == tables[..i];
      if rows != [] {
        var last := rows[|rows| - 1];
        if Source.PkOf(t, last) < 0 {
          assert !LastPkFits(tables[i], deltas[tables[i].name]);
          return Raised(ValueError);
        }
        cp := cp[t.name := Source.KeyOf(t, last)];
      }
    }
    assert tables[..|tables|] == tables;
    return Done(cp);
  }

  /** It raises exactly when the new checkpoint would not be one: when some table's last key is
      negative. */
  lemma {:induction false} RaisesExactly(tables: seq<TableSpec>, before: Checkpoint, deltas: Deltas)
    requires ValidCheckpoint(before) && Runs.DistinctTables(tables) && TimedDeltas(tables, deltas)
    ensures Advanceable(tables, deltas) <==> ValidCheckpoint(Runs.Advance(tables, before, deltas))
    decreases |tables|
  {
    hide Source.PkOf, Source.TimeOf;
    if tables != [] {
      var n := |tables| - 1;
      var t, rest := tables[n], Runs.Advance(tables[..n], before, deltas);
      RaisesExactly(tables[..n], before, deltas);
      forall i | 0 <= i < n ensures tables[i].name != t.name {
        assert Runs.DistinctTables(tables) && Apart(tables[i], t);
      }
      Runs.AdvanceElsewhere(tables[..n], before, deltas, t.name);
      assert Advanceable(tables, deltas) <==> Advanceable(tables[..n], deltas) && LastPkFits(t, deltas[t.name]);
      if ValidCheckpoint(Runs.Advance(tables, before, deltas)) && deltas[t.name] != [] {
        assert Runs.Advance(tables, before, deltas)[t.name].lastPk >= 0;
        forall name | name in rest ensures ValidWatermark(rest[name]) {
          if name != t.name { assert Runs.Advance(tables, before, deltas)[name] == rest[name]; }
        }
      }
    }
  }

  /** A batch read from the source always advances the checkpoint, never backwards, and leaves
      nothing of that source to read again. */
  lemma {:induction false} AdvanceReadsAll(cfg: Config, cp: Checkpoint, src: Runs.Snapshots, i: nat)
    requires ValidConfig(cfg) && Runs.ValidSource(cfg.tables, src) && i < |cfg.tables|
    ensures var deltas := Runs.Fetch(cfg.tables, cp, src);
            && (forall j :: 0 <= j < |cfg.tables| ==> cfg.tables[j].name in deltas)
            && Advanceable(cfg.tables, deltas)
            && var t, after := cfg.tables[i], Runs.Advance(cfg.tables, cp, deltas);
               && AtOrBefore(WatermarkOf(cp, t.name), WatermarkOf(after, t.name))
               && Source.Delta(t, src[t.name], WatermarkOf(after, t.name)) == []
  {
    hide Runs.Fetch, Runs.Advance, Source.Delta, Source.Advanced, ValidRow, Timed, Source.PkOf, Source.TimeOf;
    var deltas := Runs.Fetch(cfg.tables, cp, src);
    Runs.FetchedAreValid(cfg, cp, src);
    forall j | 0 <= j < |cfg.tables| ensures LastPkFits(cfg.tables[j], deltas[cfg.tables[j].name]) {
      Runs.FetchAt(cfg.tables, cp, src, j);
      Runs.DeltaRowsValid(cfg.tables[j], src[cfg.tables[j].name], WatermarkOf(cp, cfg.tables[j].name));
    }
    var t := cfg.tables[i];
    Runs.FetchAt(cfg.tables, cp, src, i);
    Runs.AdvanceAt(cfg.tables, cp, deltas, i);
    Source.AdvanceReadsAll(t, src[t.name], WatermarkOf(cp, t.name));
  }
}
