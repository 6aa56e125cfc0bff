/** Floor-area totals of the legacy prototype (legacy/blocks-prototype/src/lib/metrics.ts):
    sizes are metres already, and every program has an entry. */
module LegacyMetrics {
  import opened Types
  import MetricsCalc

  /** `MetricsSummary`; `gfaByFunction` is a full record over the five programs. */
  datatype Summary = Summary(totalGfa: real, totalLevels: real, gfaByFunction: map<BlockFunction, real>)

  predicate FullRecord(m: map<BlockFunction, real>) {
    forall f: BlockFunction :: f in m
  }

  /** The record the `reduce` over the five programs starts from. */
  function ZeroRecord(): (m: map<BlockFunction, real>)
    ensures FullRecord(m)
    ensures forall f: BlockFunction :: m[f] == 0.0
  {
    var m := map[Retail := 0.0, Office := 0.0, Residential := 0.0, Mixed := 0.0, Others := 0.0];
    assert m.Keys == Programs;
    FiveProgramsCover();
    m
  }

  /** `FUNCTIONS`, as a set. */
  const Programs: set<BlockFunction> := {Retail, Office, Residential, Mixed, Others}

  /** `FUNCTIONS` lists every program. */
  lemma FiveProgramsCover()
    ensures forall f: BlockFunction :: f in Programs
  {
    forall f: BlockFunction ensures f in Programs {
      match f
      case Retail =>
      case Office =>
      case Residential =>
      case Mixed =>
      case Others =>
    }
  }

  /** The floor area of one block: footprint times levels. */
  function Gfa(block: Block): real {
    block.xSize * block.ySize * block.levels
  }

  /** `calculateMetrics`: the `forEach` accumulation over the blocks, in order. */
  function CalculateMetrics(blocks: seq<Block>): (m: Summary)
    ensures FullRecord(m.gfaByFunction)
    decreases |blocks|
  {
    if |blocks| == 0 then Summary(0.0, 0.0, ZeroRecord())
    else
      var m := CalculateMetrics(blocks[..|blocks| - 1]);
      var block := blocks[|blocks| - 1];
      var gfa := Gfa(block);
      Summary(m.totalGfa + gfa, m.totalLevels + block.levels,
              m.gfaByFunction[block.defaultFunction := m.gfaByFunction[block.defaultFunction] + gfa])
  }

  /** No blocks: every total and every program entry is zero. */
  lemma EmptyIsZero()
    ensures CalculateMetrics([]) == Summary(0.0, 0.0, ZeroRecord())
  {
  }

  /** Appending a block adds its area to the total and to its own program only. */
  lemma AppendAddsToOwnProgram(blocks: seq<Block>, block: Block)
    ensures CalculateMetrics(blocks + [block]).totalGfa == CalculateMetrics(blocks).totalGfa + Gfa(block)
    ensures CalculateMetrics(blocks + [block]).totalLevels == CalculateMetrics(blocks).totalLevels + block.levels
    ensures CalculateMetrics(blocks + [block]).gfaByFunction[block.defaultFunction]
            == CalculateMetrics(blocks).gfaByFunction[block.defaultFunction] + Gfa(block)
    ensures forall f: BlockFunction :: f != block.defaultFunction ==>
              CalculateMetrics(blocks + [block]).gfaByFunction[f] == CalculateMetrics(blocks).gfaByFunction[f]
  {
    assert (blocks + [block])[..|blocks|] == blocks;
  }

  /** The legacy totals agree with the current application's reference sums on a
      metric model, where a block's area needs no conversion. */
  lemma {:induction false} AgreesWithMetricTotals(blocks: seq<Block>)
    ensures CalculateMetrics(blocks).totalGfa == MetricsCalc.SumGfa(blocks, Metric)
    ensures CalculateMetrics(blocks).totalLevels == MetricsCalc.SumLevels(blocks)
    ensures forall f: BlockFunction :: CalculateMetrics(blocks).gfaByFunction[f] == MetricsCalc.GfaOf(blocks, Metric, f)
    decreases |blocks|
  {
    if |blocks| > 0 {
      AgreesWithMetricTotals(blocks[..|blocks| - 1]);
    }
  }

  /** The five program entries add up to the total floor area. */
  lemma ProgramsSumToTotal(blocks: seq<Block>)
    ensures var m := CalculateMetrics(blocks).gfaByFunction;
      m[Retail] + m[Office] + m[Residential] + m[Mixed] + m[Others] == CalculateMetrics(blocks).totalGfa
  {
    AgreesWithMetricTotals(blocks);
    MetricsCalc.GfaSplitsByProgram(blocks, Metric);
  }
}
