/** Gross floor area and level totals of a saved model (src/shared/utils/metrics.ts). */
module MetricsCalc {
  import opened Wrappers
  import opened Types
  import opened UnitConversion

  /** The floor area one block contributes, in square metres. */
  function BlockGfa(block: Block, units: Units): real {
    ToMeters(block.xSize, units) * ToMeters(block.ySize, units) * block.levels
  }

  /** Reference sums, independent of the accumulator `computeMetrics` keeps. */
  function SumLevels(blocks: seq<Block>): real {
    if |blocks| == 0 then 0.0 else SumLevels(blocks[..|blocks| - 1]) + blocks[|blocks| - 1].levels
  }

  function SumGfa(blocks: seq<Block>, units: Units): real {
    if |blocks| == 0 then 0.0 else SumGfa(blocks[..|blocks| - 1], units) + BlockGfa(blocks[|blocks| - 1], units)
  }

  /** The floor area of the blocks carrying program `f`. */
  function GfaOf(blocks: seq<Block>, units: Units, f: BlockFunction): real {
    if |blocks| == 0 then 0.0
    else
      var last := blocks[|blocks| - 1];
      GfaOf(blocks[..|blocks| - 1], units, f) + (if last.defaultFunction == f then BlockGfa(last, units) else 0.0)
  }

  predicate Uses(blocks: seq<Block>, f: BlockFunction) {
    exists i :: 0 <= i < |blocks| && blocks[i].defaultFunction == f
  }

  /** A partial record read with `|| 0`. */
  function Entry(m: map<BlockFunction, real>, f: BlockFunction): real {
    if f in m then m[f] else 0.0
  }

  /** The sum of a per-program record over the five programs. */
  function SumOverPrograms(m: map<BlockFunction, real>): real {
    Entry(m, Retail) + Entry(m, Office) + Entry(m, Residential) + Entry(m, Mixed) + Entry(m, Others)
  }

  /** The `forEach` accumulation over the first blocks, in order. */
  function Tally(blocks: seq<Block>, units: Units): (m: Metrics)
    ensures m.units == units
    ensures m.totalLevels == SumLevels(blocks)
    ensures m.totalGFA == SumGfa(blocks, units)
    ensures forall f :: f in m.gfaByFunction <==> Uses(blocks, f)
    ensures forall f :: f in m.gfaByFunction ==> m.gfaByFunction[f] == GfaOf(blocks, units, f)
  {
    if |blocks| == 0 then Metrics(0.0, 0.0, map[], units)
    else
      var init := blocks[..|blocks| - 1];
      var block := blocks[|blocks| - 1];
      var m := Tally(init, units);
      var area := BlockGfa(block, units);
      var totals := m.gfaByFunction[block.defaultFunction := Entry(m.gfaByFunction, block.defaultFunction) + area];
      assert forall f :: Uses(blocks, f) <==> Uses(init, f) || f == block.defaultFunction by {
        forall f ensures Uses(blocks, f) ==> Uses(init, f) || f == block.defaultFunction {
          if Uses(blocks, f) && f != block.defaultFunction {
            var i :| 0 <= i < |blocks| && blocks[i].defaultFunction == f;
            assert init[i].defaultFunction == f;
          }
        }
        forall f ensures Uses(init, f) ==> Uses(blocks, f) {
          if Uses(init, f) {
            var i :| 0 <= i < |init| && init[i].defaultFunction == f;
            assert blocks[i].defaultFunction == f;
          }
        }
      }
      assert forall f :: f !in m.gfaByFunction ==> GfaOf(init, units, f) == 0.0 by {
        forall f | !Uses(init, f) ensures GfaOf(init, units, f) == 0.0 {
          UnusedProgramHasNoArea(init, units, f);
        }
      }
      Metrics(m.totalGFA + area, m.totalLevels + block.levels, totals, units)
  }

  lemma {:induction false} UnusedProgramHasNoArea(blocks: seq<Block>, units: Units, f: BlockFunction)
    requires !Uses(blocks, f)
    ensures GfaOf(blocks, units, f) == 0.0
    decreases |blocks|
  {
    if |blocks| > 0 {
      var init := blocks[..|blocks| - 1];
      assert forall i :: 0 <= i < |init| ==> init[i] == blocks[i];
      UnusedProgramHasNoArea(init, units, f);
    }
  }

  /** `computeMetricsFromBlocksModel`: totals in square metres, levels summed,
      and the model's units carried through. */
  function ComputeMetrics(model: BlocksModel): (m: Metrics)
    ensures m.units == model.units
    ensures m.totalLevels == SumLevels(model.blocks)
    ensures m.totalGFA == SumGfa(model.blocks, model.units)
    ensures forall f :: f in m.gfaByFunction <==> Uses(model.blocks, f)
    ensures forall f :: f in m.gfaByFunction ==> m.gfaByFunction[f] == GfaOf(model.blocks, model.units, f)
    ensures |model.blocks| == 0 ==> m.totalGFA == 0.0 && m.totalLevels == 0.0 && m.gfaByFunction == map[]
  {
    Tally(model.blocks, model.units)
  }

  /** The per-program areas split the total: together they add up to `totalGFA`. */
  lemma {:induction false} ProgramAreasSumToTotal(model: BlocksModel)
    ensures SumOverPrograms(ComputeMetrics(model).gfaByFunction) == ComputeMetrics(model).totalGFA
  {
    var m := ComputeMetrics(model);
    forall f ensures Entry(m.gfaByFunction, f) == GfaOf(model.blocks, model.units, f) {
      if f !in m.gfaByFunction {
        UnusedProgramHasNoArea(model.blocks, model.units, f);
      }
    }
    GfaSplitsByProgram(model.blocks, model.units);
  }

  lemma {:induction false} GfaSplitsByProgram(blocks: seq<Block>, units: Units)
    ensures GfaOf(blocks, units, Retail) + GfaOf(blocks, units, Office) + GfaOf(blocks, units, Residential)
            + GfaOf(blocks, units, Mixed) + GfaOf(blocks, units, Others) == SumGfa(blocks, units)
    decreases |blocks|
  {
    if |blocks| > 0 {
      GfaSplitsByProgram(blocks[..|blocks| - 1], units);
    }
  }
}
