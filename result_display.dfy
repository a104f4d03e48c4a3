// The result viewer: a zoom level moved in quarter steps between 50% and
// 300%, a reset that hands control back to the shell, and the name under
// which the generated image is downloaded.
module ResultDisplay {
  import App

  // Zoom is kept as a whole number of quarters: every value the viewer can
  // reach is a multiple of 0.25, which binary floating point holds exactly.
  const MinZoom: int := 2      // 0.5
  const MaxZoom: int := 12     // 3
  const DefaultZoom: int := 4  // 1

  /** The zoom factor a number of quarters stands for. */
  function ZoomValue(quarters: int): (zoom: real) {
    quarters as real / 4.0
  }

  function RealMin(a: real, b: real): (r: real)
    ensures r <= a && r <= b && (r == a || r == b)
  {
    if a <= b then a else b
  }
  function RealMax(a: real, b: real): (r: real)
    ensures r >= a && r >= b && (r == a || r == b)
  {
    if a >= b then a else b
  }

  /** `Math.min(prev + 0.25, 3)`, in quarters. */
  function ZoomedIn(quarters: int): (r: int)
    ensures ZoomValue(r) == RealMin(ZoomValue(quarters) + 0.25, 3.0)
    ensures r <= MaxZoom
  {
    if quarters + 1 < MaxZoom then quarters + 1 else MaxZoom
  }

  /** `Math.max(prev - 0.25, 0.5)`, in quarters. */
  function ZoomedOut(quarters: int): (r: int)
    ensures ZoomValue(r) == RealMax(ZoomValue(quarters) - 0.25, 0.5)
    ensures r >= MinZoom
  {
    if quarters - 1 > MinZoom then quarters - 1 else MinZoom
  }

  /** The three zoom buttons. */
  datatype ZoomAction = In | Out | Reset

  function ApplyZoom(quarters: int, action: ZoomAction): (r: int) {
    match action
    case In => ZoomedIn(quarters)
    case Out => ZoomedOut(quarters)
    case Reset => DefaultZoom
  }

  /** The zoom after pressing the buttons in order. */
  function ApplyAll(quarters: int, actions: seq<ZoomAction>): (r: int)
    decreases |actions|
  {
    if actions == [] then quarters
    else ApplyAll(ApplyZoom(quarters, actions[0]), actions[1..])
  }

  /** Any run of button presses from a zoom in range stays in [0.5, 3]. */
  lemma {:induction false} ZoomStaysInRange(quarters: int, actions: seq<ZoomAction>)
    requires MinZoom <= quarters <= MaxZoom
    ensures MinZoom <= ApplyAll(quarters, actions) <= MaxZoom
    ensures 0.5 <= ZoomValue(ApplyAll(quarters, actions)) <= 3.0
    decreases |actions|
  {
    if actions != [] {
      ZoomStaysInRange(ApplyZoom(quarters, actions[0]), actions[1..]);
    }
  }

  /** Zooming in then out returns to any start up to 2.75; at 3 it ends at 2.75. */
  lemma ZoomInThenOut(quarters: int)
    requires MinZoom <= quarters <= MaxZoom
    ensures quarters < MaxZoom ==> ZoomedOut(ZoomedIn(quarters)) == quarters
    ensures quarters == MaxZoom ==> ZoomedOut(ZoomedIn(quarters)) == MaxZoom - 1
  {
  }

  /** `/\s+/` of JavaScript regular expressions: the characters `\s` matches. */
  predicate IsSpace(c: char) {
    c == '\t' || c == '\n' || c == '\U{000B}' || c == '\U{000C}' || c == '\r' || c == ' '
    || c == '\U{00A0}' || c == '\U{1680}' || '\U{2000}' <= c <= '\U{200A}'
    || c == '\U{2028}' || c == '\U{2029}' || c == '\U{202F}' || c == '\U{205F}'
    || c == '\U{3000}' || c == '\U{FEFF}'
  }

  predicate NoSpace(s: string) {
    forall i :: 0 <= i < |s| ==> !IsSpace(s[i])
  }

  /** `s` without its leading run of whitespace. */
  function SkipSpaces(s: string): (r: string)
    ensures |r| <= |s|
    ensures s != [] && IsSpace(s[0]) ==> |r| < |s|
    decreases |s|
  {
    if s != [] && IsSpace(s[0]) then SkipSpaces(s[1..]) else s
  }

  /** What is skipped is a run of whitespace, and what is left is the rest of `s`. */
  lemma {:induction false} SkipSpacesSplits(s: string)
    ensures var r := SkipSpaces(s);
      && r == s[|s| - |r|..]
      && (r == [] || !IsSpace(r[0]))
      && forall i :: 0 <= i < |s| - |r| ==> IsSpace(s[i])
    decreases |s|
  {
    if s != [] && IsSpace(s[0]) {
      SkipSpacesSplits(s[1..]);
    }
  }

  /** `s.replace(/\s+/g, '_')`: every maximal whitespace run becomes one '_'. */
  function CollapseSpaces(s: string): (r: string)
    ensures NoSpace(r)
    ensures |r| <= |s|
    decreases |s|
  {
    if s == [] then []
    else if IsSpace(s[0]) then "_" + CollapseSpaces(SkipSpaces(s))
    else [s[0]] + CollapseSpaces(s[1..])
  }

  lemma {:induction false} SkipSpacesAppend(s: string, c: char)
    ensures SkipSpaces(s) == [] ==> SkipSpaces(s + [c]) == (if IsSpace(c) then [] else [c])
    ensures SkipSpaces(s) != [] ==> SkipSpaces(s + [c]) == SkipSpaces(s) + [c]
    decreases |s|
  {
    if s == [] {
      assert [c][1..] == [];
      assert SkipSpaces([c]) == if IsSpace(c) then SkipSpaces([]) else [c];
    } else if IsSpace(s[0]) {
      assert (s + [c])[1..] == s[1..] + [c];
      assert SkipSpaces(s + [c]) == SkipSpaces(s[1..] + [c]);
      assert SkipSpaces(s) == SkipSpaces(s[1..]);
      SkipSpacesAppend(s[1..], c);
    } else {
      assert (s + [c])[0] == s[0];
      assert SkipSpaces(s) == s;
      assert SkipSpaces(s + [c]) == s + [c];
    }
  }

  /**
   * Reading the title left to right: a non-space character is copied, a
   * space starts a new '_' unless it continues a run already replaced.
   */
  lemma {:induction false} CollapseSpacesAppend(s: string, c: char)
    ensures CollapseSpaces(s + [c]) ==
      if !IsSpace(c) then CollapseSpaces(s) + [c]
      else if |s| > 0 && IsSpace(s[|s| - 1]) then CollapseSpaces(s)
      else CollapseSpaces(s) + "_"
    decreases |s|
  {
    if s == [] {
      assert [c][1..] == [];
    } else if !IsSpace(s[0]) {
      assert (s + [c])[1..] == s[1..] + [c];
      CollapseSpacesAppend(s[1..], c);
    } else {
      var rest := SkipSpaces(s);
      SkipSpacesAppend(s, c);
      assert (s + [c])[0] == s[0];
      assert CollapseSpaces(s + [c]) == "_" + CollapseSpaces(SkipSpaces(s + [c]));
      if rest == [] {
        SkipSpacesSplits(s);
        assert IsSpace(s[|s| - 1]);
        assert CollapseSpaces(s) == "_";
        assert [c][1..] == [];
      } else {
        CollapseSpacesAppend(rest, c);
        SkipSpacesSplits(s);
        assert rest[|rest| - 1] == s[|s| - 1];
      }
    }
  }

  /** A title without whitespace is kept as it is. */
  lemma {:induction false} CollapseSpacesKeeps(s: string)
    requires NoSpace(s)
    ensures CollapseSpaces(s) == s
    decreases |s|
  {
    if s != [] {
      CollapseSpacesKeeps(s[1..]);
    }
  }

  const ResultSuffix := "_Result.png"

  /** The download name: the collapsed title followed by `_Result.png`. */
  function DownloadName(title: string): (name: string)
    ensures NoSpace(name)
    ensures |name| >= |ResultSuffix| && name[|name| - |ResultSuffix|..] == ResultSuffix
    ensures name[..|name| - |ResultSuffix|] == CollapseSpaces(title)
  {
    CollapseSpaces(title) + ResultSuffix
  }

  class ResultViewer {
    var zoom: int

    ghost predicate Valid()
      reads this
    {
      MinZoom <= zoom <= MaxZoom
    }

    constructor ()
      ensures Valid() && zoom == DefaultZoom
    {
      zoom := DefaultZoom;
    }

    method ZoomIn()
      requires Valid()
      modifies this
      ensures Valid() && zoom == ZoomedIn(old(zoom))
    {
      zoom := ZoomedIn(zoom);
    }

    method ZoomOut()
      requires Valid()
      modifies this
      ensures Valid() && zoom == ZoomedOut(old(zoom))
    {
      zoom := ZoomedOut(zoom);
    }

    method ResetZoom()
      modifies this
      ensures Valid() && zoom == DefaultZoom
    {
      zoom := DefaultZoom;
    }

    /** The viewer's reset button: zoom back to 100%, then the shell's reset callback. */
    method LocalReset(shell: App.Studio)
      modifies this, shell`result
      ensures Valid() && zoom == DefaultZoom && shell.result.None?
    {
      zoom := DefaultZoom;
      shell.ClearResult();
    }
  }
}
