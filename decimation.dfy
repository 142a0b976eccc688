/**
 * The mesh decimation factor chosen when the camera service connects
 * (`onTangoServiceConnected`): the depth image size, reduced eight-fold
 * for the colour camera, and the cloud density level (1 low, 2 medium,
 * 3 high) select the largest step of a short list that divides the image.
 */
module Decimation {

  /** One image dimension as the decimation rule sees it: divided by 8 for the colour camera. */
  function RuleDimension(imageSize: nat, cameraColor: bool): (d: nat)
    ensures d <= imageSize
    ensures !cameraColor ==> d == imageSize
  {
    imageSize / (if cameraColor then 8 else 1)
  }

  /** The factors the rule can choose. */
  predicate IsDecimationStep(d: nat)
  {
    d == 1 || d == 2 || d == 3 || d == 5 || d == 10 || d == 15 || d == 20
  }

  /**
   * The rule as the application writes it. Its low-density branch tests
   * the width twice in each of its 3 and 2 steps and never the height.
   */
  function DecimationAsWritten(width: nat, height: nat, level: int): (d: nat)
    ensures IsDecimationStep(d)
    ensures width % d == 0
  {
    if level == 3 then
      if height >= 480 && width % 20 == 0 && height % 20 == 0 then 20
      else if width % 10 == 0 && height % 10 == 0 then 10
      else if width % 15 == 0 && height % 15 == 0 then 15
      else 1
    else if level == 2 then
      if height >= 480 && width % 10 == 0 && height % 10 == 0 then 10
      else if width % 5 == 0 && height % 5 == 0 then 5
      else 1
    else if level == 1 then
      if height >= 480 && width % 5 == 0 && height % 5 == 0 then 5
      else if width % 3 == 0 && width % 3 == 0 then 3
      else if width % 2 == 0 && width % 2 == 0 then 2
      else 1
    else 1
  }

  /** The same rule with the low-density 3 and 2 steps testing width and height. */
  function Decimation(width: nat, height: nat, level: int): (d: nat)
    ensures IsDecimationStep(d)
    ensures width % d == 0 && height % d == 0
  {
    if level == 3 then
      if height >= 480 && width % 20 == 0 && height % 20 == 0 then 20
      else if width % 10 == 0 && height % 10 == 0 then 10
      else if width % 15 == 0 && height % 15 == 0 then 15
      else 1
    else if level == 2 then
      if height >= 480 && width % 10 == 0 && height % 10 == 0 then 10
      else if width % 5 == 0 && height % 5 == 0 then 5
      else 1
    else if level == 1 then
      if height >= 480 && width % 5 == 0 && height % 5 == 0 then 5
      else if width % 3 == 0 && height % 3 == 0 then 3
      else if width % 2 == 0 && height % 2 == 0 then 2
      else 1
    else 1
  }

  /**
   * The factor the application sets from the camera's image size, colour
   * mode and density level, by the rule as written: it always divides the
   * reduced width, and the reduced height too except at the low level.
   */
  function MeshDecimation(imageWidth: nat, imageHeight: nat, cameraColor: bool, level: int): (d: nat)
    ensures IsDecimationStep(d)
    ensures RuleDimension(imageWidth, cameraColor) % d == 0
    ensures level != 1 ==> RuleDimension(imageHeight, cameraColor) % d == 0
  {
    var w := RuleDimension(imageWidth, cameraColor);
    var h := RuleDimension(imageHeight, cameraColor);
    DecimationAsWritten(w, h, level)
  }

  /** The factor the corrected rule sets for the camera: it divides both reduced dimensions. */
  function IntendedMeshDecimation(imageWidth: nat, imageHeight: nat, cameraColor: bool, level: int): (d: nat)
    ensures IsDecimationStep(d)
    ensures RuleDimension(imageWidth, cameraColor) % d == 0 && RuleDimension(imageHeight, cameraColor) % d == 0
  {
    Decimation(RuleDimension(imageWidth, cameraColor), RuleDimension(imageHeight, cameraColor), level)
  }

  /** A 24 x 32 colour-camera image (3 x 4 once reduced) at the low level gets 3 as written, and 1 as intended. */
  lemma ColourCameraMissesHeight()
    ensures MeshDecimation(24, 32, true, 1) == 3 && RuleDimension(32, true) % 3 != 0
    ensures IntendedMeshDecimation(24, 32, true, 1) == 1
  {
    AsWrittenMissesHeight();
  }

  /** Outside the three density levels the factor stays 1. */
  lemma UnknownLevelKeepsOne(width: nat, height: nat, level: int)
    requires level != 1 && level != 2 && level != 3
    ensures DecimationAsWritten(width, height, level) == 1 && Decimation(width, height, level) == 1
  {
  }

  /** 20 is chosen exactly at the high level for a tall image both of whose dimensions 20 divides. */
  lemma TwentyIff(width: nat, height: nat, level: int)
    ensures Decimation(width, height, level) == 20 <==>
      level == 3 && height >= 480 && width % 20 == 0 && height % 20 == 0
    ensures DecimationAsWritten(width, height, level) == 20 <==>
      level == 3 && height >= 480 && width % 20 == 0 && height % 20 == 0
  {
  }

  /** The two rules differ only in the low-density 3 and 2 steps. */
  lemma AsWrittenAgreesAboveLow(width: nat, height: nat, level: int)
    requires level != 1 || (height >= 480 && width % 5 == 0 && height % 5 == 0)
    ensures DecimationAsWritten(width, height, level) == Decimation(width, height, level)
  {
  }

  /** As written, once its 5 step fails, the low level's choice does not depend on the height. */
  lemma LowLevelIgnoresHeight(width: nat, h1: nat, h2: nat)
    requires !(h1 >= 480 && width % 5 == 0 && h1 % 5 == 0)
    requires !(h2 >= 480 && width % 5 == 0 && h2 % 5 == 0)
    ensures DecimationAsWritten(width, h1, 1) == DecimationAsWritten(width, h2, 1)
  {
  }

  /** A 3 x 4 image at the low level gets factor 3 although 3 does not divide its height. */
  lemma AsWrittenMissesHeight()
    ensures DecimationAsWritten(3, 4, 1) == 3 && 4 % 3 != 0
    ensures Decimation(3, 4, 1) == 1
  {
  }
}
