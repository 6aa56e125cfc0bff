/** The scenario comparison list (src/shared/stores/scenariosStore.ts): at most
    three saved options, one of which may be selected. */
module ScenariosStore {
  import opened Wrappers
  import opened Types
  import opened MetricsCalc

  /** The list never holds more than this many options. */
  const MaxOptions: nat := 3

  datatype State = State(options: seq<ScenarioOption>, selectedOptionId: Option<string>)

  /** The values `defaultOption` draws from nanoid and the clock. The two
      timestamps are read separately, so they are separate parameters. */
  datatype Fresh = Fresh(
    optionId: string,
    blockIdA: string,
    blockIdB: string,
    optionCreatedAt: string,
    modelCreatedAt: string)

  predicate Bounded(s: State) {
    |s.options| <= MaxOptions
  }

  function Initial(): (s: State)
    ensures Bounded(s) && s.options == [] && s.selectedOptionId.None?
  {
    State([], None)
  }

  /** `addOption`: a full list is left alone; otherwise the option goes last and is selected. */
  function AddOption(s: State, option: ScenarioOption): (r: State)
    ensures |s.options| >= MaxOptions ==> r == s
    ensures |s.options| < MaxOptions ==>
      r.options == s.options + [option] && r.selectedOptionId == Some(option.id)
    ensures Bounded(s) ==> Bounded(r)
  {
    if |s.options| >= MaxOptions then s
    else State(s.options + [option], Some(option.id))
  }

  /** `replaceOption`: every option with the given id becomes `next`, the rest
      stay where they were, and `next` is selected whether or not anything matched. */
  function ReplaceOption(s: State, optionId: string, next: ScenarioOption): (r: State)
    ensures |r.options| == |s.options|
    ensures forall i :: 0 <= i < |s.options| ==>
      r.options[i] == (if s.options[i].id == optionId then next else s.options[i])
    ensures r.selectedOptionId == Some(next.id)
  {
    State(seq(|s.options|, i requires 0 <= i < |s.options| =>
            if s.options[i].id == optionId then next else s.options[i]),
          Some(next.id))
  }

  /** `selectOption` does not check that the id is in the list. */
  function SelectOption(s: State, id: string): (r: State)
    ensures r.options == s.options && r.selectedOptionId == Some(id)
  {
    State(s.options, Some(id))
  }

  /** One of the two demo blocks: 3.2 m levels, on the ground, unrotated. */
  function DemoBlock(id: string, name: string, size: real, levels: real, posX: real, program: BlockFunction): Block {
    Block(id, name, size, size, levels, 3.2, posX, 0.0, 0.0, None, None, None, program)
  }

  /** The metric model of `defaultOption`: a 20 × 20 m six-level mixed-use block
      at the origin and a 15 × 15 m ten-level residential block 30 m along x. */
  function DemoModel(draw: Fresh): (m: BlocksModel)
    ensures m.units == Metric && |m.blocks| == 2
    ensures m.blocks[0].id == draw.blockIdA && m.blocks[1].id == draw.blockIdB
  {
    BlocksModel(Metric,
      [DemoBlock(draw.blockIdA, "Block A", 20.0, 6.0, 0.0, Mixed),
       DemoBlock(draw.blockIdB, "Block B", 15.0, 10.0, 30.0, Residential)],
      draw.modelCreatedAt)
  }

  function DefaultOption(draw: Fresh): (o: ScenarioOption)
    ensures o.id == draw.optionId && o.model == DemoModel(draw)
    ensures o.metrics == ComputeMetrics(o.model)
  {
    ScenarioOption(draw.optionId, "Demo Option", draw.optionCreatedAt, DemoModel(draw), ComputeMetrics(DemoModel(draw)))
  }

  /** The demo option's figures: 2400 m² mixed use plus 2250 m² residential. */
  lemma DemoMetrics(draw: Fresh)
    ensures DefaultOption(draw).metrics ==
      Metrics(4650.0, 16.0, map[Mixed := 2400.0, Residential := 2250.0], Metric)
  {
    var blocks := DemoModel(draw).blocks;
    assert blocks[..1][..0] == [];
    assert blocks[..|blocks| - 1] == blocks[..1];
    assert Tally(blocks[..1][..0], Metric) == Metrics(0.0, 0.0, map[], Metric);
    assert Tally(blocks[..1], Metric) == Metrics(2400.0, 6.0, map[Mixed := 2400.0], Metric);
    assert Tally(blocks, Metric) == Metrics(4650.0, 16.0, map[Mixed := 2400.0, Residential := 2250.0], Metric);
  }

  /** `seedIfEmpty`: an empty list gets the demo option, selected; otherwise nothing changes. */
  function SeedIfEmpty(s: State, draw: Fresh): (r: State)
    ensures |s.options| == 0 ==>
      r.options == [DefaultOption(draw)] && r.selectedOptionId == Some(draw.optionId)
    ensures |s.options| != 0 ==> r == s
  {
    if |s.options| == 0 then State([DefaultOption(draw)], Some(draw.optionId)) else s
  }

  /** Seeding twice is seeding once, whatever values the second call draws. */
  lemma SeedIfEmptyIdempotent(s: State, first: Fresh, second: Fresh)
    ensures SeedIfEmpty(SeedIfEmpty(s, first), second) == SeedIfEmpty(s, first)
    ensures |SeedIfEmpty(s, first).options| >= 1
  {
  }

  /** No operation takes the list past three options. */
  lemma OperationsKeepBound(s: State, option: ScenarioOption, optionId: string, id: string, draw: Fresh)
    requires Bounded(s)
    ensures Bounded(AddOption(s, option))
    ensures Bounded(ReplaceOption(s, optionId, option))
    ensures Bounded(SelectOption(s, id))
    ensures Bounded(SeedIfEmpty(s, draw))
  {
  }

  /** Replacing an id that is not in the list keeps the options and only moves the selection. */
  lemma ReplaceAbsentKeepsOptions(s: State, optionId: string, next: ScenarioOption)
    requires forall i :: 0 <= i < |s.options| ==> s.options[i].id != optionId
    ensures ReplaceOption(s, optionId, next) == SelectOption(s, next.id)
  {
    assert ReplaceOption(s, optionId, next).options == s.options;
  }

  /** Adding to a list with room and then replacing the new option by id swaps just that entry,
      provided the id was not already taken. */
  lemma ReplaceAfterAdd(s: State, option: ScenarioOption, next: ScenarioOption)
    requires |s.options| < MaxOptions
    requires forall i :: 0 <= i < |s.options| ==> s.options[i].id != option.id
    ensures ReplaceOption(AddOption(s, option), option.id, next) == AddOption(s, next)
  {
    var r := ReplaceOption(AddOption(s, option), option.id, next);
    assert r.options == s.options + [next];
  }
}
