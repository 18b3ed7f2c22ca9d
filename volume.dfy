/** The volume meter (src/app/volume.rs): a microphone level is shown as a
    bar graph on the 5x5 LED matrix, one uniform row per threshold. */
module Volume {
  /** The level a row needs to exceed to light, top row first. */
  const THRESHOLDS: seq<int> := [100, 80, 60, 40, 20]

  /** A row of five cells, all lit or all dark. */
  function Row(lit: bool): (row: seq<nat>)
    ensures |row| == 5 && forall c :: 0 <= c < 5 ==> row[c] == (if lit then 1 else 0)
  {
    seq(5, _ => if lit then 1 else 0)
  }

  /** The image of one loop pass. */
  function VolumeImage(mic: int): (img: seq<seq<nat>>)
    ensures |img| == 5 && forall r :: 0 <= r < 5 ==> |img[r]| == 5
  {
    [Row(mic > 100), Row(mic > 80), Row(mic > 60), Row(mic > 40), Row(mic > 20)]
  }

  /** Row r is lit exactly when the level exceeds threshold r, and every
      cell of a row holds the same value. */
  lemma RowThresholds(mic: int, r: nat, c: nat)
    requires r < 5 && c < 5
    ensures VolumeImage(mic)[r][c] == VolumeImage(mic)[r][0]
    ensures VolumeImage(mic)[r][c] == 1 <==> mic > THRESHOLDS[r]
    ensures VolumeImage(mic)[r][c] == 0 <==> mic <= THRESHOLDS[r]
  {
  }

  /** A bar graph: a lit row has every row below it lit, and a dark row
      every row above it dark. */
  lemma BarGraph(mic: int, r: nat, r': nat)
    requires r <= r' < 5
    ensures VolumeImage(mic)[r][0] == 1 ==> VolumeImage(mic)[r'][0] == 1
    ensures VolumeImage(mic)[r'][0] == 0 ==> VolumeImage(mic)[r][0] == 0
  {
    RowThresholds(mic, r, 0);
    RowThresholds(mic, r', 0);
  }

  /** Silence gives a dark matrix; a level above 100 lights all of it. */
  lemma Extremes(mic: int)
    ensures mic <= 20 ==> forall r, c :: 0 <= r < 5 && 0 <= c < 5 ==> VolumeImage(mic)[r][c] == 0
    ensures mic > 100 ==> forall r, c :: 0 <= r < 5 && 0 <= c < 5 ==> VolumeImage(mic)[r][c] == 1
  {
  }

  /** A louder level never darkens a cell. */
  lemma LouderLightsMore(mic: int, mic': int, r: nat, c: nat)
    requires mic <= mic' && r < 5 && c < 5
    ensures VolumeImage(mic)[r][c] <= VolumeImage(mic')[r][c]
  {
    RowThresholds(mic, r, c);
    RowThresholds(mic', r, c);
  }
}
