/** `banner` from foos.py: a line of padding, the text and an optional action word. */
module Foos {
  import opened Wrappers

  const DefaultWidth := 60
  const DefaultChar := "-"

  /** The keyword arguments `width`, `char` (here `fill`) and `action`, each optional. */
  datatype BannerArgs = BannerArgs(width: Option<int>, fill: Option<string>, action: Option<bool>)

  /** `int(width / 2)`: true division, then truncation toward zero. */
  function Half(width: int): (h: int)
    ensures width >= 0 ==> 0 <= 2 * h <= width <= 2 * h + 1
    ensures width < 0 ==> 2 * h - 1 <= width <= 2 * h <= 0
  {
    if width >= 0 then width / 2 else -((-width) / 2)
  }

  /** The padding character: the first character of a longer string. */
  function PadChar(fill: string): (c: string)
    ensures |c| <= 1
    ensures |fill| <= 1 ==> c == fill
    ensures |fill| > 1 ==> c == [fill[0]]
  {
    if |fill| > 1 then fill[..1] else fill
  }

  /** `c * n` for a string of at most one character; empty when `n <= 0`. */
  function Repeat(c: string, n: int): (r: string)
    requires |c| <= 1
    ensures |r| == if n > 0 then n * |c| else 0
    ensures forall i :: 0 <= i < |r| ==> r[i] == c[0]
    decreases n
  {
    if n <= 0 then "" else c + Repeat(c, n - 1)
  }

  function Pad(args: BannerArgs): string {
    Repeat(PadChar(args.fill.GetOr(DefaultChar)), Half(args.width.GetOr(DefaultWidth)))
  }

  /** The word after the text: "started" for a truthy action, "exiting" otherwise. */
  function ActionWord(action: bool): string {
    if action then "started" else "exiting"
  }

  function Banner(text: string, args: BannerArgs): string {
    var pad := Pad(args);
    match args.action
    case Some(a) => pad + " " + text + " " + ActionWord(a) + " " + pad
    case None => pad + " " + text + " " + pad
  }

  /**
   * The banner starts and ends with the same padding, carries the text after one
   * space and, when an action is given, the action word after the text, with one
   * space on each side; its length is the two pads, the text, the action word and
   * the separating spaces.
   */
  lemma BannerShape(text: string, args: BannerArgs)
    ensures var pad := Pad(args); var r := Banner(text, args);
      && |r| == 2 * |pad| + |text| + 2 + (if args.action.Some? then |ActionWord(args.action.value)| + 1 else 0)
      && r[..|pad|] == pad
      && r[|r| - |pad|..] == pad
      && r[|pad|] == ' '
      && r[|pad| + 1..|pad| + 1 + |text|] == text
      && r[|pad| + 1 + |text|] == ' '
      && (args.action.Some? ==>
            var w := ActionWord(args.action.value);
            r[|pad| + 2 + |text|..|pad| + 2 + |text| + |w|] == w && r[|pad| + 2 + |text| + |w|] == ' ')
  {
  }

  /** The padding is the fill character repeated `width / 2` times, nothing when that is not positive. */
  lemma PadLength(args: BannerArgs)
    ensures var c := PadChar(args.fill.GetOr(DefaultChar)); var h := Half(args.width.GetOr(DefaultWidth));
      && |Pad(args)| == (if h > 0 then h * |c| else 0)
      && (forall i :: 0 <= i < |Pad(args)| ==> Pad(args)[i] == c[0])
  {
  }

  lemma RepeatFive(c: string)
    requires |c| == 1
    ensures Repeat(c, 5) == c + c + c + c + c
  {
    assert Repeat(c, 1) == c;
    assert Repeat(c, 2) == c + c;
    assert Repeat(c, 3) == c + c + c;
    assert Repeat(c, 4) == c + c + c + c;
  }

  /** `banner("Test Banner", width=10)` from the test suite. */
  lemma BannerPlainExample()
    ensures Banner("Test Banner", BannerArgs(Some(10), None, None)) == "----- Test Banner -----"
  {
    var args := BannerArgs(Some(10), None, None);
    RepeatFive("-");
    assert Pad(args) == "-----";
    assert Banner("Test Banner", args) == "-----" + " " + "Test Banner" + " " + "-----";
  }

  /** `banner("Test Banner", width=10, action=True, char="=")` from the test suite. */
  lemma BannerStartedExample()
    ensures Banner("Test Banner", BannerArgs(Some(10), Some("="), Some(true))) == "===== Test Banner started ====="
  {
    var args := BannerArgs(Some(10), Some("="), Some(true));
    RepeatFive("=");
    assert Pad(args) == "=====";
    assert Banner("Test Banner", args) == "=====" + " " + "Test Banner" + " " + "started" + " " + "=====";
  }

  /** `banner("Test Banner", width=10, action=False)` from the test suite. */
  lemma BannerExitingExample()
    ensures Banner("Test Banner", BannerArgs(Some(10), None, Some(false))) == "----- Test Banner exiting -----"
  {
    var args := BannerArgs(Some(10), None, Some(false));
    RepeatFive("-");
    assert Pad(args) == "-----";
    assert Banner("Test Banner", args) == "-----" + " " + "Test Banner" + " " + "exiting" + " " + "-----";
  }
}
