/**
 * Resolution of the capture window at startup (python/shiny_detector.py:24-42).
 *
 * The window library's title lookup is an input: `lookup(name)` is the list of
 * windows that the library reports for `name`, in the library's order.
 */
module WindowResolver {
  import opened Wrappers

  /** A window as the library reports it. */
  datatype Window = Window(left: int, top: int, width: int, height: int, minimized: bool)

  /** The screen rectangle handed to the frame grabber. */
  datatype Region = Region(top: int, left: int, width: int, height: int)

  /** The outcome of startup: either the loop starts on a region, or the process stops. */
  datatype Startup = Monitoring(region: Region) | Aborted

  /** The titles tried by default, in order. */
  const DefaultWindowNames: seq<string> := ["DS Capture", "3DSCapture"]

  function RegionOf(w: Window): Region {
    Region(w.top, w.left, w.width, w.height)
  }

  /** A name qualifies when it has a match and its FIRST match is not minimized. */
  predicate Qualifies(wins: seq<Window>) {
    |wins| > 0 && !wins[0].minimized
  }

  /**
   * The resolver's search: the first name (in order) that qualifies gives the
   * rectangle of its first window; a minimized first match moves on to the next
   * name without looking at the other windows of that name.
   */
  function FindCaptureRegion(names: seq<string>, lookup: string -> seq<Window>): (r: Option<Region>)
    ensures r.None? <==> forall i :: 0 <= i < |names| ==> !Qualifies(lookup(names[i]))
    ensures r.Some? ==>
      exists i :: 0 <= i < |names| && Qualifies(lookup(names[i])) &&
        r.value == RegionOf(lookup(names[i])[0]) &&
        forall j :: 0 <= j < i ==> !Qualifies(lookup(names[j]))
  {
    if names == [] then None
    else
      var wins := lookup(names[0]);
      if |wins| > 0 && !wins[0].minimized then Some(RegionOf(wins[0]))
      else
        var rest := FindCaptureRegion(names[1..], lookup);
        assert forall i :: 1 <= i < |names| ==> names[i] == names[1..][i - 1];
        rest
  }

  /** Startup resolves the default names and aborts when nothing qualifies. */
  function StartMonitor(lookup: string -> seq<Window>): (s: Startup)
    ensures s.Aborted? <==> !Qualifies(lookup("DS Capture")) && !Qualifies(lookup("3DSCapture"))
    ensures s.Monitoring? && Qualifies(lookup("DS Capture")) ==> s.region == RegionOf(lookup("DS Capture")[0])
    ensures s.Monitoring? && !Qualifies(lookup("DS Capture")) ==> s.region == RegionOf(lookup("3DSCapture")[0])
  {
    match FindCaptureRegion(DefaultWindowNames, lookup)
    case None => Aborted
    case Some(region) => Monitoring(region)
  }

  /**
   * Only the first window reported for each name is ever consulted: two lookups
   * that agree on whether each name has a match and on its first match give the
   * same result, whatever the later windows are.
   */
  lemma {:induction false} OnlyFirstMatchConsulted(names: seq<string>, lookup1: string -> seq<Window>, lookup2: string -> seq<Window>)
    requires forall i :: 0 <= i < |names| ==>
      (|lookup1(names[i])| > 0 <==> |lookup2(names[i])| > 0) &&
      (|lookup1(names[i])| > 0 ==> lookup1(names[i])[0] == lookup2(names[i])[0])
    ensures FindCaptureRegion(names, lookup1) == FindCaptureRegion(names, lookup2)
  {
    if names != [] {
      assert forall i :: 0 <= i < |names| - 1 ==> names[1..][i] == names[i + 1];
      OnlyFirstMatchConsulted(names[1..], lookup1, lookup2);
    }
  }

  /**
   * A minimized first match makes the search skip that name, even when a later
   * window with the same name is visible.
   */
  lemma MinimizedFirstMatchSkipsName(names: seq<string>, lookup: string -> seq<Window>)
    requires |names| > 0 && |lookup(names[0])| > 1
    requires lookup(names[0])[0].minimized && !lookup(names[0])[1].minimized
    ensures FindCaptureRegion(names, lookup) == FindCaptureRegion(names[1..], lookup)
  {
  }
}
