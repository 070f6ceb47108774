/** The console helpers of src/debug/console.rs: the `Console::log` event
    writer, the startup greeting, the `log` command's repeat rule and the
    per-frame resize of the console window. */
module Console {
  import opened Ecs
  import opened Input

  /** Margin kept around the console window, in logical pixels. */
  const Padding: real := 50.0

  /** The bounds of a Rust `i64`, the type of the `log` command's count. */
  const I64Min: int := -0x8000_0000_0000_0000
  const I64Max: int := 0x7FFF_FFFF_FFFF_FFFF
  newtype i64 = x: int | I64Min <= x <= I64Max

  /** The arguments of `log <msg> [num]` as the argument parser yields them. */
  datatype LogCommand = LogCommand(msg: string, num: Option<i64>)

  /** The parser's error, left opaque. */
  datatype ParseError = ParseError(reason: string)

  /** `n` copies of `msg`; none when `n <= 0`, as the Rust range `0..n` is then empty. */
  function Repeat(msg: string, n: int): (r: seq<string>)
    ensures |r| == if n <= 0 then 0 else n
    ensures forall i :: 0 <= i < |r| ==> r[i] == msg
    decreases n
  {
    if n <= 0 then [] else Repeat(msg, n - 1) + [msg]
  }

  /** The number of times `log` prints: `num`, defaulting to one. */
  function RepeatCount(cmd: LogCommand): (n: int)
    ensures cmd.num.None? ==> n == 1
    ensures cmd.num.Some? ==> n == cmd.num.value as int
  {
    match cmd.num
    case None => 1
    case Some(k) => k as int
  }

  /** The replies `LogCommand::driver` emits for what the console took: nothing
      when no command was entered or it did not parse, otherwise the message
      `RepeatCount` times. */
  function LogReplies(taken: Option<Result<LogCommand, ParseError>>): (r: seq<string>)
    ensures forall i :: 0 <= i < |r| ==> taken.Some? && taken.value.Success? && r[i] == taken.value.value.msg
    ensures taken.Some? && taken.value.Success? && taken.value.value.num.None? ==> |r| == 1
    ensures taken.Some? && taken.value.Success? && taken.value.value.num.Some? ==>
              |r| == if taken.value.value.num.value <= 0 then 0 else taken.value.value.num.value as int
  {
    match taken
    case Some(Success(cmd)) => Repeat(cmd.msg, RepeatCount(cmd))
    case _ => []
  }

  /** A parsed `log msg n` with `n > 0` replies `msg` exactly `n` times, in order. */
  lemma LogRepliesPositive(msg: string, n: i64)
    requires n > 0
    ensures |LogReplies(Some(Success(LogCommand(msg, Some(n)))))| == n as int
    ensures forall i :: 0 <= i < n as int ==> LogReplies(Some(Success(LogCommand(msg, Some(n)))))[i] == msg
  {
  }

  /** Without a count, `log msg` replies exactly once. */
  lemma LogRepliesDefault(msg: string)
    ensures LogReplies(Some(Success(LogCommand(msg, None)))) == [msg]
  {
  }

  /** A count of zero or less replies nothing and is not an error. */
  lemma LogRepliesNonPositive(msg: string, n: i64)
    requires n <= 0
    ensures LogReplies(Some(Success(LogCommand(msg, Some(n))))) == []
  {
  }

  /** The concrete command `log hello 2`. */
  lemma LogHelloTwice()
    ensures LogReplies(Some(Success(LogCommand("hello", Some(2))))) == ["hello", "hello"]
  {
  }

  /** The text of the greeting `startup_driver` logs. */
  const ReadyMessage := "My Bevy Is Ready"

  /** The `PrintConsoleLine` events written so far, oldest first. Both
      `Console::log` and a command's replies write to this stream. */
  class ConsoleEvents {
    var lines: seq<string>

    constructor ()
      ensures lines == []
    {
      lines := [];
    }

    /** `Console::log`: exactly one event carrying `line`. */
    method Log(line: string)
      modifies this
      ensures lines == old(lines) + [line]
    {
      lines := lines + [line];
    }

    /** `Console::startup_driver` */
    method StartupDriver()
      modifies this
      ensures lines == old(lines) + [ReadyMessage]
    {
      Log("My Bevy Is Ready");
    }

    /** `LogCommand::driver`: `taken` is what `ConsoleCommand::take` handed over. */
    method LogCommandDriver(taken: Option<Result<LogCommand, ParseError>>)
      modifies this
      ensures lines == old(lines) + LogReplies(taken)
    {
      if taken.Some? && taken.value.Success? {
        var msg := taken.value.value.msg;
        var repeatCount: int := if taken.value.value.num.Some? then taken.value.value.num.value as int else 1;
        var i: int := 0;
        while i < repeatCount
          invariant 0 <= i
          invariant repeatCount > 0 ==> i <= repeatCount
          invariant repeatCount <= 0 ==> i == 0
          invariant lines == old(lines) + Repeat(msg, i)
          decreases repeatCount - i
        {
          Log(msg);
          i := i + 1;
        }
      }
    }
  }

  /** The one property of a window the resize reads: its logical size. */
  datatype Window = Window(width: real, height: real)

  /** The console's size for a window: a margin of `Padding` off each side
      horizontally; vertically, twice the window height less the margins. */
  function ConsoleSize(window: Window): (size: (real, real))
    ensures size.0 + 2.0 * Padding == window.width
    ensures size.1 + 2.0 * Padding == 2.0 * window.height
  {
    (window.width - Padding * 2.0, window.height * 2.0 - Padding * 2.0)
  }

  /** The console widget's `ConsoleConfiguration` resource as this app sets it. */
  class ConsoleConfiguration {
    var keys: seq<KeyCode>
    var leftPos: real
    var topPos: real
    var historySize: nat
    var symbol: string
    var titleName: string
    var collapsible: bool
    var resizable: bool
    var moveable: bool
    var showTitleBar: bool
    var numSuggestions: nat
    var blockMouse: bool
    var blockKeyboard: bool
    var width: real
    var height: real

    /** The configuration `Console::plugin` inserts; `width` and `height` keep
        the widget library's defaults until the first resize. */
    constructor (defaultWidth: real, defaultHeight: real)
      ensures keys == [Backquote]
      ensures leftPos == Padding && topPos == Padding
      ensures historySize == 20 && numSuggestions == 4
      ensures symbol == "> " && titleName == "MAGIC WORDS"
      ensures !collapsible && !resizable && !moveable && showTitleBar
      ensures !blockMouse && blockKeyboard
      ensures width == defaultWidth && height == defaultHeight
    {
      keys := [Backquote];
      leftPos, topPos := Padding, Padding;
      historySize := 20;
      symbol := "> ";
      titleName := "MAGIC WORDS";
      collapsible, resizable, moveable, showTitleBar := false, false, false, true;
      numSuggestions := 4;
      blockMouse, blockKeyboard := false, true;
      width, height := defaultWidth, defaultHeight;
    }

    /** `Console::resize_driver`: `windows` are all windows the query sees. With
        exactly one window the size follows it, whatever it was before; otherwise
        the system fails and nothing changes. No other field is touched. */
    method ResizeDriver(windows: seq<Window>) returns (r: Outcome<QuerySingleError>)
      modifies this`width, this`height
      ensures r.Pass? <==> |windows| == 1
      ensures r.Fail? ==> r.error == Single(windows).error
      ensures r.Pass? ==> (width, height) == ConsoleSize(windows[0])
      ensures r.Fail? ==> width == old(width) && height == old(height)
    {
      var query := Single(windows);
      if query.Failure? {
        return Fail(query.error);
      }
      var window := query.value;
      width := window.width - Padding * 2.0;
      height := window.height * 2.0 - Padding * 2.0;
      return Pass;
    }
  }
}
