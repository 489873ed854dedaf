/** The value types of types.ts. String-literal unions become datatypes. */
module Types {
  import opened Wrappers

  /** types.ts:2 */
  datatype AppMode = Single | Batch | Video

  /** types.ts:4-10 */
  datatype Background = White | Marble | Black | Natural
  datatype Intensity = Natural | Pro | UltraSparkle
  datatype MetalColor = Silver | Gold | RoseGold
  datatype StoneColor = Original | Diamond | Ruby | Sapphire | Emerald | Amethyst | Canary
  datatype AspectRatio = Ratio1x1 | Ratio3x4 | Ratio4x3 | Ratio9x16 | Ratio16x9

  datatype RetouchOptions = RetouchOptions(
    background: Background,
    intensity: Intensity,
    metalColor: Option<MetalColor>,
    stoneColor: Option<StoneColor>,
    aspectRatio: Option<AspectRatio>)

  /** types.ts:12-18: one submitted image and its lifecycle */
  datatype ItemStatus = Pending | Processing | Completed | Error

  datatype BatchItem = BatchItem(
    id: string,
    originalImage: string,
    resultImage: Option<string>,
    status: ItemStatus,
    error: Option<string>)

  /** types.ts:20-24: the whole run */
  datatype RunStatus = Idle | Processing | Completed | Error

  datatype ProcessingState = ProcessingState(
    status: RunStatus,
    batchItems: seq<BatchItem>,
    currentProcessingIndex: int)

  /** The outcome of one remote call: a result string or a failure message. */
  type Outcome = Result<string, string>

  predicate Terminal(item: BatchItem) {
    item.status == ItemStatus.Completed || item.status == ItemStatus.Error
  }
}
