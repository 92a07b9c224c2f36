/**
 * The shiny/not-shiny decision (python/shiny_detector.py:57-58, 90-91): the
 * truncated average colour is compared channel by channel with a fixed BGR
 * reference colour; it is shiny when some channel differs by strictly more
 * than the tolerance.
 */
module Classify {
  import opened Frame

  /** The reference colour, in BGR order. */
  const NormalColour := Colour(132, 125, 30)

  const Tolerance := 5

  function Abs(x: int): int {
    if x < 0 then -x else x
  }

  /** The per-channel absolute difference of two colours. */
  function ColourDiff(c: Colour, d: Colour): Colour {
    Colour(Abs(c.b - d.b), Abs(c.g - d.g), Abs(c.r - d.r))
  }

  function Max(x: int, y: int): int {
    if x < y then y else x
  }

  /** The largest channel of a colour. */
  function MaxChannel(c: Colour): int {
    Max(c.b, Max(c.g, c.r))
  }

  /**
   * Shiny when any channel of the difference exceeds the tolerance: equivalently
   * when the largest channel difference does, and not shiny exactly when every
   * channel lies within the tolerance of the reference (bounds included).
   */
  function IsShiny(avg: Colour): (shiny: bool)
    ensures shiny <==> MaxChannel(ColourDiff(avg, NormalColour)) > Tolerance
    ensures !shiny <==> 127 <= avg.b <= 137 && 120 <= avg.g <= 130 && 25 <= avg.r <= 35
  {
    var diff := ColourDiff(avg, NormalColour);
    diff.b > Tolerance || diff.g > Tolerance || diff.r > Tolerance
  }

  /** The boundary cases: a difference of exactly the tolerance is not shiny. */
  lemma ClassificationExamples()
    ensures !IsShiny(Colour(132, 125, 30))
    ensures !IsShiny(Colour(137, 125, 30))
    ensures !IsShiny(Colour(127, 120, 35))
    ensures IsShiny(Colour(138, 125, 30))
    ensures IsShiny(Colour(120, 125, 30))
  {
  }

  /**
   * Because the box is drawn into the frame before the region is averaged, a
   * screen showing exactly the reference colour everywhere is sampled as
   * (110, 145, 25) and classified shiny.
   */
  lemma ReferenceColouredScreenIsShiny(grabbed: seq<seq<Bgra>>, alpha: uint8)
    requires FitsRoi(grabbed)
    requires forall y, x :: 0 <= y < |grabbed| && 0 <= x < |grabbed[y]| ==> grabbed[y][x] == Bgra(132, 125, 30, alpha)
    ensures SampleColour(grabbed) == Colour(110, 145, 25)
    ensures IsShiny(SampleColour(grabbed))
  {
    UniformSample(grabbed, Bgra(132, 125, 30, alpha));
  }

  /**
   * Which uniform screens are sampled as not shiny: blue 152..164, green
   * 95..107 and red 30..42. None of them is the reference colour itself.
   */
  lemma UniformScreenNotShinyIff(grabbed: seq<seq<Bgra>>, p: Bgra)
    requires FitsRoi(grabbed)
    requires forall y, x :: 0 <= y < |grabbed| && 0 <= x < |grabbed[y]| ==> grabbed[y][x] == p
    ensures !IsShiny(SampleColour(grabbed)) <==>
      152 <= p.b <= 164 && 95 <= p.g <= 107 && 30 <= p.r <= 42
  {
    UniformSample(grabbed, p);
  }
}
