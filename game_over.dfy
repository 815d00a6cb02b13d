// The result screen shown when a run ends: its title and lines, the score
// submission after a clear, and the press machine behind its two buttons.

module GameOver {
  import opened Util
  import opened GameTypes
  import TimeFormat
  import SceneRules
  import Scores

  const GOLD: string := "#FFD700"
  const RED: string := "#FF4444"

  /** The title and its colour. */
  function Title(r: GameResult): (string, string)
  {
    if r.success then ("GOAL REACHED!", GOLD) else ("GAME OVER", RED)
  }

  /** The title reads "GOAL REACHED!" in gold exactly for a clear, and
      "GAME OVER" in red exactly for a loss. */
  lemma TitleRules(r: GameResult)
    ensures Title(r).0 == "GOAL REACHED!" <==> r.success
    ensures Title(r).1 == GOLD <==> r.success
    ensures Title(r).0 == "GAME OVER" <==> !r.success
    ensures Title(r).1 == RED <==> !r.success
  {
  }

  function ClearTimeLine(t: nat): string
  {
    "Clear Time: " + TimeFormat.FormatClock(t)
  }

  function HeightLine(h: nat): string
  {
    "Best Height: " + TimeFormat.NatToString(h) + "m"
  }

  /** The text lines of the screen from top to bottom. */
  function Lines(r: GameResult): seq<string>
  {
    [Title(r).0] + (if r.success then [ClearTimeLine(r.clearTime)] else []) + [HeightLine(r.height)]
  }

  /** The title comes first and the height line last; the clear-time line
      sits between them exactly when the run was a clear. */
  lemma LinesRules(r: GameResult)
    ensures |Lines(r)| == (if r.success then 3 else 2)
    ensures Lines(r)[0] == Title(r).0
    ensures Lines(r)[|Lines(r)| - 1] == HeightLine(r.height)
    ensures r.success ==> Lines(r)[1] == ClearTimeLine(r.clearTime)
    ensures (exists i :: 0 <= i < |Lines(r)| && Lines(r)[i] == ClearTimeLine(r.clearTime)) <==> r.success
  {
    var ls := Lines(r);
    if !r.success {
      forall i | 0 <= i < |ls|
        ensures ls[i] != ClearTimeLine(r.clearTime)
      {
        ClearTimeNotOtherLine(r, i);
      }
    } else {
      assert ls[1] == ClearTimeLine(r.clearTime);
    }
  }

  lemma ClearTimeNotOtherLine(r: GameResult, i: nat)
    requires !r.success && i < |Lines(r)|
    ensures Lines(r)[i] != ClearTimeLine(r.clearTime)
  {
    var c := ClearTimeLine(r.clearTime);
    assert c[0] == 'C';
    if i == 0 {
      assert Lines(r)[0][0] == 'G';
    } else {
      assert Lines(r)[1][0] == 'B';
    }
  }

  /** The clear time is shown in the same clock format as the in-game timer,
      and reads back as the number of seconds. */
  lemma ClearTimeLikeTimer(t: nat)
    ensures ClearTimeLine(t)[12..] == SceneRules.TimerText(t)[6..] == TimeFormat.FormatClock(t)
    ensures var c := ClearTimeLine(t)[12..]; var k := |c| - 3;
      |c| >= 5 && c[k] == ':' && TimeFormat.IsDigits(c[..k]) && TimeFormat.IsDigits(c[k + 1..]) &&
      TimeFormat.ParseDecimal(c[k + 1..]) < 60 &&
      60 * TimeFormat.ParseDecimal(c[..k]) + TimeFormat.ParseDecimal(c[k + 1..]) == t
  {
    assert ClearTimeLine(t)[12..] == TimeFormat.FormatClock(t);
    assert SceneRules.TimerText(t)[6..] == TimeFormat.FormatClock(t);
    TimeFormat.FormatClockRoundTrip(t);
  }

  /** A clear in 125 seconds at height 300 shows three lines. */
  lemma ClearExample()
    ensures Lines(GameResult(true, 125, 300)) ==
      ["GOAL REACHED!", "Clear Time: 02:05", "Best Height: 300m"]
  {
    TimeFormat.FormatClockExample();
    assert TimeFormat.NatToString(3) == "3";
    assert TimeFormat.NatToString(30) == "30";
    assert TimeFormat.NatToString(300) == "300";
    assert ClearTimeLine(125) == "Clear Time: 02:05";
    assert HeightLine(300) == "Best Height: 300m";
  }

  // ---------------------------------------------------------------------
  // Score submission

  /** The stored nickname `|| "Anonymous"`: an absent or empty entry falls
      back to the default. */
  function Nickname(stored: Option<string>): (n: string)
    ensures n != ""
    ensures Scores.Truthy(stored) ==> n == stored.value
    ensures !Scores.Truthy(stored) ==> n == "Anonymous"
  {
    if Scores.Truthy(stored) then stored.value else "Anonymous"
  }

  /** The body posted after the screen opens: only a clear is submitted. */
  function SaveRequest(stored: Option<string>, r: GameResult): Option<Scores.ScoreRequest>
  {
    if r.success then
      Some(Scores.ScoreRequest(Some(Nickname(stored)), Some(r.clearTime), Some(r.height)))
    else None
  }

  /** A request goes out exactly for a clear, and carries the nickname, the
      clear time and the height. */
  lemma SaveRules(stored: Option<string>, r: GameResult)
    ensures SaveRequest(stored, r).Some? <==> r.success
    ensures r.success ==> var q := SaveRequest(stored, r).value;
      q.nickname == Some(Nickname(stored)) && q.clearTime == Some(r.clearTime as int) &&
      q.maxHeight == Some(r.height as int) && Scores.Truthy(q.nickname)
  {
  }

  /** What the page learns from the request: an ok response with its `rank`
      field, or nothing when the request or its decoding failed. */
  datatype Reply = Reply(ok: bool, rank: Option<int>) | Failed

  /** What the scores endpoint answers, read back by the screen. */
  function ReplyOf(p: Scores.PostResponse): (reply: Reply)
    ensures reply.Reply? && (reply.ok <==> Scores.Status(p) == 200)
  {
    match p
    case Saved(rank, _) => Reply(true, Some(rank))
    case MissingFields => Reply(false, None)
  }

  /** The rank line, shown only for an ok response whose rank is truthy. */
  function RankText(reply: Reply): (t: Option<string>)
    ensures t.Some? <==> reply.Reply? && reply.ok && reply.rank.Some? && reply.rank.value != 0
  {
    if reply.Reply? && reply.ok && reply.rank.Some? && reply.rank.value != 0 then
      Some("RANK #" + TimeFormat.IntToString(reply.rank.value))
    else None
  }

  /** Every clear submitted to the endpoint gets a rank line, whether or not
      its database is configured; the rank shown is one more than the number
      of strictly faster stored clears. */
  lemma ClearShowsRank(rows: seq<Scores.Row>, configured: bool, id: string, stored: Option<string>, r: GameResult)
    requires r.success
    ensures var (p, _) := Scores.PostOutcome(rows, configured, id, SaveRequest(stored, r).value);
      RankText(ReplyOf(p)).Some? &&
      (configured ==> p.Saved? && p.rank == 1 + Scores.CountFaster(rows, r.clearTime))
  {
    Scores.PostRules(rows, configured, id, SaveRequest(stored, r).value);
  }

  // ---------------------------------------------------------------------
  // Buttons

  const BORDER: real := 4.0
  const BG_DEFAULT: int := 0x444444
  const BG_HOVER: int := 0x666666

  /** The last `draw(bg, pressed)` of a button. */
  datatype Draw = Draw(bg: int, pressed: bool)

  datatype ButtonState = ButtonState(isHover: bool, isPressed: bool, y: real, drawn: Draw, clicks: nat)

  datatype PointerEvent = Over | Out | Down | Up

  /** A freshly created button at rest at `baseY`. */
  function Fresh(baseY: real): ButtonState
  {
    ButtonState(false, false, baseY, Draw(BG_DEFAULT, false), 0)
  }

  /** One pointer event; `clicks` counts the calls of `onClick`. */
  function Step(s: ButtonState, baseY: real, e: PointerEvent): ButtonState
  {
    match e
    case Over =>
      if s.isPressed then s.(isHover := true)
      else s.(isHover := true, drawn := Draw(BG_HOVER, false))
    case Out =>
      s.(isHover := false, isPressed := false, y := if s.isPressed then baseY else s.y,
         drawn := Draw(BG_DEFAULT, false))
    case Down =>
      s.(isPressed := true, y := baseY + BORDER,
         drawn := Draw(if s.isHover then BG_HOVER else BG_DEFAULT, true))
    case Up =>
      if s.isPressed then
        s.(isPressed := false, y := baseY,
           drawn := Draw(if s.isHover then BG_HOVER else BG_DEFAULT, false), clicks := s.clicks + 1)
      else s
  }

  function Run(s: ButtonState, baseY: real, es: seq<PointerEvent>): ButtonState
    decreases |es|
  {
    if es == [] then s else Step(Run(s, baseY, es[..|es| - 1]), baseY, es[|es| - 1])
  }

  /** What every reachable state satisfies: the button sits `BORDER` lower
      exactly while pressed, the drawing shows the press, and a released
      button is drawn in the colour its hover state calls for. */
  predicate Consistent(s: ButtonState, baseY: real)
  {
    s.y == (if s.isPressed then baseY + BORDER else baseY) &&
    s.drawn.pressed == s.isPressed &&
    (s.drawn.bg == BG_HOVER || s.drawn.bg == BG_DEFAULT) &&
    (s.drawn.bg == BG_HOVER ==> s.isHover) &&
    (!s.isPressed ==> s.drawn.bg == (if s.isHover then BG_HOVER else BG_DEFAULT))
  }

  lemma FreshConsistent(baseY: real)
    ensures Consistent(Fresh(baseY), baseY)
  {
  }

  lemma StepConsistent(s: ButtonState, baseY: real, e: PointerEvent)
    requires Consistent(s, baseY)
    ensures Consistent(Step(s, baseY, e), baseY)
  {
  }

  lemma {:induction false} RunConsistent(s: ButtonState, baseY: real, es: seq<PointerEvent>)
    requires Consistent(s, baseY)
    ensures Consistent(Run(s, baseY, es), baseY)
    decreases |es|
  {
    if es != [] {
      RunConsistent(s, baseY, es[..|es| - 1]);
      StepConsistent(Run(s, baseY, es[..|es| - 1]), baseY, es[|es| - 1]);
    }
  }

  /** `onClick` fires on an event exactly when it is a pointer-up on a
      pressed button, and then once. */
  lemma ClickRule(s: ButtonState, baseY: real, e: PointerEvent)
    ensures Step(s, baseY, e).clicks == s.clicks + (if e == Up && s.isPressed then 1 else 0)
  {
  }

  function CountDowns(es: seq<PointerEvent>): nat
    decreases |es|
  {
    if es == [] then 0
    else CountDowns(es[..|es| - 1]) + (if es[|es| - 1] == Down then 1 else 0)
  }

  function Pending(s: ButtonState): nat
  {
    if s.isPressed then 1 else 0
  }

  /** Every click consumes a pointer-down: over any run, the clicks plus a
      still-open press never exceed the pointer-downs, counting a press
      open at the start. */
  lemma {:induction false} ClicksBounded(s: ButtonState, baseY: real, es: seq<PointerEvent>)
    ensures var t := Run(s, baseY, es);
      t.clicks >= s.clicks &&
      t.clicks - s.clicks + Pending(t) <= CountDowns(es) + Pending(s)
    decreases |es|
  {
    if es != [] {
      ClicksBounded(s, baseY, es[..|es| - 1]);
    }
  }

  /** Pressing and releasing over the button clicks once and leaves it at
      rest; pressing and then leaving cancels the click, and the later
      release does nothing. */
  lemma PressExamples(baseY: real)
    ensures Run(Fresh(baseY), baseY, [Over, Down, Up]) ==
      ButtonState(true, false, baseY, Draw(BG_HOVER, false), 1)
    ensures Run(Fresh(baseY), baseY, [Over, Down, Out, Up]) == Fresh(baseY)
  {
    assert [Over, Down, Up][..2] == [Over, Down];
    assert [Over, Down][..1] == [Over];
    assert [Over, Down, Out, Up][..3] == [Over, Down, Out];
    assert [Over, Down, Out][..2] == [Over, Down];
  }

  /** One of the two buttons in a scene. */
  class Button {
    const baseY: real
    var isHover: bool
    var isPressed: bool
    var y: real
    var drawn: Draw
    var clicks: nat

    function State(): ButtonState
      reads this
    {
      ButtonState(isHover, isPressed, y, drawn, clicks)
    }

    predicate Valid()
      reads this
    {
      Consistent(State(), baseY)
    }

    constructor (y: real)
      ensures baseY == y && State() == Fresh(y) && Valid()
    {
      baseY := y;
      isHover := false;
      isPressed := false;
      this.y := y;
      drawn := Draw(BG_DEFAULT, false);
      clicks := 0;
    }

    method PointerOver()
      requires Valid()
      modifies this
      ensures State() == Step(old(State()), baseY, Over) && Valid()
    {
      isHover := true;
      if !isPressed {
        drawn := Draw(BG_HOVER, false);
      }
    }

    method PointerOut()
      requires Valid()
      modifies this
      ensures State() == Step(old(State()), baseY, Out) && Valid()
    {
      isHover := false;
      if isPressed {
        isPressed := false;
        y := baseY;
      }
      drawn := Draw(BG_DEFAULT, false);
    }

    method PointerDown()
      requires Valid()
      modifies this
      ensures State() == Step(old(State()), baseY, Down) && Valid()
    {
      isPressed := true;
      y := baseY + BORDER;
      drawn := Draw(if isHover then BG_HOVER else BG_DEFAULT, true);
    }

    /** Returns whether `onClick` ran. */
    method PointerUp() returns (clicked: bool)
      requires Valid()
      modifies this
      ensures State() == Step(old(State()), baseY, Up) && Valid()
      ensures clicked <==> old(isPressed)
    {
      clicked := false;
      if isPressed {
        isPressed := false;
        y := baseY;
        drawn := Draw(if isHover then BG_HOVER else BG_DEFAULT, false);
        clicks := clicks + 1;
        clicked := true;
      }
    }
  }

  /** What a button's `onClick` asks of the scene manager and the page. */
  datatype Command = StopSelf | StopScene(name: string) | StartScene(name: string) | Navigate(url: string)

  datatype ButtonKind = PlayAgain | MainMenu

  function Label(b: ButtonKind): string
  {
    match b
    case PlayAgain => "PLAY AGAIN"
    case MainMenu => "MAIN MENU"
  }

  function OnClick(b: ButtonKind): seq<Command>
  {
    match b
    case PlayAgain => [StopSelf, StopScene("GameScene"), StartScene("GameScene")]
    case MainMenu => [StopSelf, StopScene("GameScene"), Navigate("/")]
  }

  /** Both buttons close this screen and the finished level first; only
      "PLAY AGAIN" starts a new level, and only "MAIN MENU" leaves for the
      site's root page. */
  lemma OnClickRules(b: ButtonKind)
    ensures |OnClick(b)| == 3 && OnClick(b)[..2] == [StopSelf, StopScene("GameScene")]
    ensures StartScene("GameScene") in OnClick(b) <==> b == PlayAgain
    ensures (exists c :: c in OnClick(b) && c.Navigate?) <==> b == MainMenu
    ensures b == MainMenu ==> OnClick(b)[2] == Navigate("/")
  {
    if b == PlayAgain {
      assert forall c :: c in OnClick(b) ==> !c.Navigate?;
    } else {
      assert OnClick(b)[2] in OnClick(b);
    }
  }
}
