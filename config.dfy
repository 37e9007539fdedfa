/**
  The parameters one visual-search-circle trial is run with, as the host
  experiment runner resolves them.  Images and keys are identifiers; sizes and
  multipliers are JavaScript numbers, modelled as exact reals.
*/
module TrialConfig {
  import opened Js

  type Image = string
  type Key = string

  /** A two-element numeric array parameter, such as `target_size`. */
  datatype Pair = Pair(first: real, second: real)

  /** The `foil` parameter: one image for every slot, or an array of images. */
  datatype Foil = OneFoil(image: Image) | FoilArray(images: seq<Image>)

  datatype Config = Config(
    target: Image,
    foil: Foil,
    fixationImage: Image,
    flankerImage: Image,
    setSize: int,
    targetPresent: bool,
    targetSize: Pair,
    fixationSize: Pair,
    circleDiameter: real,
    flankerSize: real,
    flankerOffset: real,
    target1Key: Key,
    target2Key: Key,
    trialDuration: Nullable<int>,
    fixationDuration: int,
    searchArrayDuration: int)

  /** The image path the correctness rule treats as "target 1". */
  const Target1Image: Image := "img/target1.png"

  /** The image path the correctness rule compares `!target` against. */
  const Target2Image: Image := "img/target2.png"

  /** How many times a loop `for (i = 0; i < n; i++)` runs for an integer `n`. */
  function SlotCount(n: int): nat
  {
    if n <= 0 then 0 else n
  }
}
