/** The shared data model of the workshop (src/shared/types.ts). */
module Types {
  import opened Wrappers

  datatype Units = Metric | Imperial

  /** The closed set of programs a block can carry. */
  datatype BlockFunction = Retail | Office | Residential | Mixed | Others

  /** A rectangular stack of levels; the legacy prototype's `BlockModel`
      has the same fields. Lengths are in the session's units;
      a rotation is `None` when the optional field is absent. */
  datatype Block = Block(
    id: string,
    name: string,
    xSize: real,
    ySize: real,
    levels: real,
    levelHeight: real,
    posX: real,
    posY: real,
    posZ: real,
    rotationX: Option<real>,
    rotationY: Option<real>,
    rotationZ: Option<real>,
    defaultFunction: BlockFunction)

  /** `Partial<BlockParams>`, and the legacy `Partial<BlockModel>` of the same
      shape: `None` is an absent key. A rotation key may be present with the
      value `undefined`, written `Some(None)`. */
  datatype BlockPatch = BlockPatch(
    id: Option<string>,
    name: Option<string>,
    xSize: Option<real>,
    ySize: Option<real>,
    levels: Option<real>,
    levelHeight: Option<real>,
    posX: Option<real>,
    posY: Option<real>,
    posZ: Option<real>,
    rotationX: Option<Option<real>>,
    rotationY: Option<Option<real>>,
    rotationZ: Option<Option<real>>,
    defaultFunction: Option<BlockFunction>)

  const EmptyPatch := BlockPatch(None, None, None, None, None, None, None, None, None, None, None, None, None)

  /** `{ ...block, ...changes }`. */
  function Merge(block: Block, changes: BlockPatch): Block {
    Block(
      changes.id.GetOr(block.id),
      changes.name.GetOr(block.name),
      changes.xSize.GetOr(block.xSize),
      changes.ySize.GetOr(block.ySize),
      changes.levels.GetOr(block.levels),
      changes.levelHeight.GetOr(block.levelHeight),
      changes.posX.GetOr(block.posX),
      changes.posY.GetOr(block.posY),
      changes.posZ.GetOr(block.posZ),
      changes.rotationX.GetOr(block.rotationX),
      changes.rotationY.GetOr(block.rotationY),
      changes.rotationZ.GetOr(block.rotationZ),
      changes.defaultFunction.GetOr(block.defaultFunction))
  }

  /** A saved model; its `schemaVersion` is always 1. */
  datatype BlocksModel = BlocksModel(units: Units, blocks: seq<Block>, createdAt: string)

  /** Aggregated floor-area figures; `gfaByFunction` is a partial record. */
  datatype Metrics = Metrics(
    totalGFA: real,
    totalLevels: real,
    gfaByFunction: map<BlockFunction, real>,
    units: Units)

  /** One entry of the scenario comparison list; its `source` is always 'blocks'. */
  datatype ScenarioOption = ScenarioOption(
    id: string,
    name: string,
    createdAt: string,
    model: BlocksModel,
    metrics: Metrics)

  /** The ids of a block list, in order. */
  function Ids(blocks: seq<Block>): (ids: seq<string>)
    ensures |ids| == |blocks|
    ensures forall i :: 0 <= i < |blocks| ==> ids[i] == blocks[i].id
  {
    seq(|blocks|, i requires 0 <= i < |blocks| => blocks[i].id)
  }

  /** `blocks.some((block) => block.id === id)`. */
  predicate HasId(blocks: seq<Block>, id: string) {
    exists i :: 0 <= i < |blocks| && blocks[i].id == id
  }
}
