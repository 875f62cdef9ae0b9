/**
 Fault injection history (`fault_injection.cpp`): the set of fault paths already failed, and the text
 log from which a later run of the program rebuilds it. The canonical stack and the decoded symbols
 are inputs.
 */
module FaultText {
  import opened Options

  const WORD := 0x1_0000_0000_0000_0000

  type Stack = seq<nat>

  // ----- numbers

  function HexDigit(d: nat): char
    requires d < 16
  {
    "0123456789abcdef"[d]
  }

  /** What `std::hex <<` prints. */
  function Hex(n: nat): string {
    if n < 16 then [HexDigit(n)] else Hex(n / 16) + [HexDigit(n % 16)]
  }

  function Decimal(n: nat): string {
    if n < 10 then [HexDigit(n)] else Decimal(n / 10) + [HexDigit(n % 10)]
  }

  predicate IsHexDigit(c: char) {
    '0' <= c <= '9' || 'a' <= c <= 'f' || 'A' <= c <= 'F'
  }

  function DigitValue(c: char): nat
    requires IsHexDigit(c)
  {
    if '0' <= c <= '9' then c as nat - '0' as nat
    else if 'a' <= c <= 'f' then c as nat - 'a' as nat + 10
    else c as nat - 'A' as nat + 10
  }

  /** How many hexadecimal digits a text starts with. */
  function Digits(s: string): (k: nat)
    ensures k <= |s| && forall i :: 0 <= i < k ==> IsHexDigit(s[i])
    ensures k < |s| ==> !IsHexDigit(s[k])
  {
    if s == "" || !IsHexDigit(s[0]) then 0 else 1 + Digits(s[1..])
  }

  function HexValue(s: string): nat
    requires forall i :: 0 <= i < |s| ==> IsHexDigit(s[i])
  {
    if s == "" then 0 else HexValue(s[..|s| - 1]) * 16 + DigitValue(s[|s| - 1])
  }

  /** `std::stoull(s, nullptr, 16)`: reads the leading digits; throws if there are none or if the
      value does not fit. */
  function ParseHex(s: string): Option<nat> {
    var k := Digits(s);
    if k == 0 || HexValue(s[..k]) >= WORD then None else Some(HexValue(s[..k]))
  }

  lemma DigitRoundTrip(d: nat)
    requires d < 16
    ensures IsHexDigit(HexDigit(d)) && DigitValue(HexDigit(d)) == d
    ensures HexDigit(d) != '\n' && HexDigit(d) != ' ' && HexDigit(d) != '#' && HexDigit(d) != 'I'
  {
  }

  lemma {:induction false} HexRoundTrip(n: nat)
    ensures Hex(n) != "" && forall i :: 0 <= i < |Hex(n)| ==> IsHexDigit(Hex(n)[i])
    ensures HexValue(Hex(n)) == n
  {
    DigitRoundTrip(n % 16);
    if n >= 16 {
      HexRoundTrip(n / 16);
      var s := Hex(n);
      assert s[..|s| - 1] == Hex(n / 16);
    } else {
      assert Hex(n)[..0] == "";
    }
  }

  /** Reading back a printed word gives the word. */
  lemma ParseHexRoundTrip(n: nat)
    requires n < WORD
    ensures ParseHex(Hex(n)) == Some(n)
  {
    HexRoundTrip(n);
    var s := Hex(n);
    assert Digits(s) == |s|;
    assert s[..|s|] == s;
  }

  ghost predicate Lacks(s: string, c: char) {
    c !in s
  }

  lemma HexIsPlain(n: nat)
    ensures Lacks(Hex(n), '\n') && Lacks(Hex(n), ' ') && Hex(n)[0] != '#' && Hex(n)[0] != 'I'
  {
  }

  lemma {:induction false} DecimalIsPlain(n: nat)
    ensures Lacks(Decimal(n), '\n')
  {
    DigitRoundTrip(n % 10);
    if n >= 10 {
      DecimalIsPlain(n / 10);
    }
  }

  function DecimalValue(s: string): nat
    requires forall i :: 0 <= i < |s| ==> '0' <= s[i] <= '9'
  {
    if s == "" then 0 else DecimalValue(s[..|s| - 1]) * 10 + (s[|s| - 1] as nat - '0' as nat)
  }

  lemma {:induction false} DecimalRoundTrip(n: nat)
    ensures Decimal(n) != "" && forall i :: 0 <= i < |Decimal(n)| ==> '0' <= Decimal(n)[i] <= '9'
    ensures DecimalValue(Decimal(n)) == n
  {
    DecimalDigit(n % 10);
    if n >= 10 {
      DecimalRoundTrip(n / 10);
      var s := Decimal(n);
      assert s[..|s| - 1] == Decimal(n / 10);
    } else {
      assert Decimal(n)[..0] == "";
    }
  }

  lemma DecimalDigit(d: nat)
    requires d < 10
    ensures '0' <= HexDigit(d) <= '9' && HexDigit(d) as nat - '0' as nat == d
  {
  }

  // ----- std::getline

  function IndexOf(s: string, c: char): (k: nat)
    ensures k <= |s| && (k < |s| ==> s[k] == c) && c !in s[..k]
  {
    if s == "" || s[0] == c then 0 else 1 + IndexOf(s[1..], c)
  }

  /** Everything that reading with `std::getline` until the end yields: no empty piece after a final
      delimiter. */
  function Pieces(s: string, c: char): seq<string>
    decreases |s|
  {
    if s == "" then []
    else
      var k := IndexOf(s, c);
      if k == |s| then [s] else [s[..k]] + Pieces(s[k + 1..], c)
  }

  lemma {:induction false} FirstIndex(piece: string, c: char, rest: string)
    requires Lacks(piece, c)
    ensures IndexOf(piece + [c] + rest, c) == |piece|
  {
    var s := piece + [c] + rest;
    if piece != "" {
      assert s[0] == piece[0] && piece[0] in piece;
      assert s[1..] == piece[1..] + [c] + rest;
      FirstIndex(piece[1..], c, rest);
    }
  }

  lemma FirstPiece(piece: string, c: char, rest: string)
    requires Lacks(piece, c)
    ensures Pieces(piece + [c] + rest, c) == [piece] + Pieces(rest, c)
  {
    var s := piece + [c] + rest;
    FirstIndex(piece, c, rest);
    var k := |piece|;
    assert s[..k] == piece && s[k + 1..] == rest;
  }

  lemma SplitFirst(a: string, c: char) returns (piece: string, rest: string)
    requires a != "" && a[|a| - 1] == c
    ensures a == piece + [c] + rest && Lacks(piece, c)
    ensures rest == "" || rest[|rest| - 1] == c
  {
    var k := IndexOf(a, c);
    assert c in a[..|a|];
    piece, rest := a[..k], a[k + 1..];
    assert a == piece + [c] + rest;
    assert rest != "" ==> rest[|rest| - 1] == a[|a| - 1];
  }

  lemma PiecesConcatOne(piece: string, rest: string, b: string, c: char)
    requires Lacks(piece, c) && Pieces(rest + b, c) == Pieces(rest, c) + Pieces(b, c)
    ensures Pieces(piece + [c] + rest + b, c) == Pieces(piece + [c] + rest, c) + Pieces(b, c)
  {
    calc {
      Pieces(piece + [c] + rest + b, c);
      { assert piece + [c] + rest + b == piece + [c] + (rest + b); }
      Pieces(piece + [c] + (rest + b), c);
      { FirstPiece(piece, c, rest + b); }
      [piece] + (Pieces(rest, c) + Pieces(b, c));
      [piece] + Pieces(rest, c) + Pieces(b, c);
      { FirstPiece(piece, c, rest); }
      Pieces(piece + [c] + rest, c) + Pieces(b, c);
    }
  }

  /** A text of whole pieces can be read separately from what follows. */
  lemma {:induction false} PiecesConcat(a: string, b: string, c: char)
    requires a == "" || a[|a| - 1] == c
    ensures Pieces(a + b, c) == Pieces(a, c) + Pieces(b, c)
    decreases |a|
  {
    if a == "" {
      assert a + b == b;
    } else {
      var piece, rest := SplitFirst(a, c);
      PiecesConcat(rest, b, c);
      PiecesConcatOne(piece, rest, b, c);
    }
  }

  // ----- what log_stack_trace writes

  function StackLine(stack: Stack): string {
    if stack == [] then "" else StackLine(stack[..|stack| - 1]) + Hex(stack[|stack| - 1]) + " "
  }

  /** A captured frame; `symbol` is what was decoded for it, if anything. */
  datatype Frame = Frame(address: nat, symbol: Option<string>)

  function FrameLine(frame: Frame): string {
    "# " + if frame.symbol.Some? then Hex(frame.address) + " " + frame.symbol.value else ""
  }

  /** The frames up to the first null one, one comment line each. */
  function FrameLines(frames: seq<Frame>): string {
    if frames == [] || frames[0].address == 0 then "" else FrameLine(frames[0]) + "\n" + FrameLines(frames[1..])
  }

  function RecordText(stack: Stack, frames: seq<Frame>): string {
    StackLine(stack) + "\n" + FrameLines(frames) + "\n"
  }

  const ITERATION := "# Iteration: "

  function IterationText(n: nat): string {
    ITERATION + Decimal(n) + "\n"
  }

  // ----- what load_fault_log reads

  datatype Loaded = Loaded(iterations: nat, stacks: set<Stack>)

  function ParseFrames(pieces: seq<string>): Option<Stack> {
    if pieces == [] then Some([])
    else
      var before := ParseFrames(pieces[..|pieces| - 1]);
      var last := ParseHex(pieces[|pieces| - 1]);
      if before.Some? && last.Some? then Some(before.value + [last.value]) else None
  }

  /** One line of the log; None is the exception for a piece that is not a number. */
  function LoadLine(sofar: Loaded, line: string): Option<Loaded> {
    if ITERATION <= line then Some(sofar.(iterations := sofar.iterations + 1))
    else if "#" <= line then Some(sofar)
    else
      var stack := ParseFrames(Pieces(line, ' '));
      if stack.Some? then Some(sofar.(stacks := sofar.stacks + {stack.value})) else None
  }

  function LoadLines(lines: seq<string>): Option<Loaded> {
    if lines == [] then Some(Loaded(0, {}))
    else
      var before := LoadLines(lines[..|lines| - 1]);
      if before.Some? then LoadLine(before.value, lines[|lines| - 1]) else None
  }

  function Load(text: string): Option<Loaded> {
    LoadLines(Pieces(text, '\n'))
  }

  ghost function Both(a: Loaded, b: Loaded): Loaded {
    Loaded(a.iterations + b.iterations, a.stacks + b.stacks)
  }

  lemma LoadLineMore(a: Loaded, b: Loaded, line: string)
    requires LoadLine(b, line).Some?
    ensures LoadLine(Both(a, b), line) == Some(Both(a, LoadLine(b, line).value))
  {
    var stack := ParseFrames(Pieces(line, ' '));
    assert stack.Some? ==> a.stacks + (b.stacks + {stack.value}) == a.stacks + b.stacks + {stack.value};
  }

  lemma {:induction false} LoadConcat(a: seq<string>, b: seq<string>)
    requires LoadLines(a).Some? && LoadLines(b).Some?
    ensures LoadLines(a + b) == Some(Both(LoadLines(a).value, LoadLines(b).value))
  {
    if b == [] {
      assert a + b == a;
      assert LoadLines(b) == Some(Loaded(0, {}));
      assert LoadLines(a).value.stacks + {} == LoadLines(a).value.stacks;
    } else {
      var n := |b| - 1;
      assert (a + b)[..|a + b| - 1] == a + b[..n] && (a + b)[|a + b| - 1] == b[n];
      LoadConcat(a, b[..n]);
      LoadLineMore(LoadLines(a).value, LoadLines(b[..n]).value, b[n]);
    }
  }

  /** Whole lines load separately. */
  lemma LoadAppend(a: string, b: string)
    requires (a == "" || a[|a| - 1] == '\n') && Load(a).Some? && Load(b).Some?
    ensures Load(a + b) == Some(Both(Load(a).value, Load(b).value))
  {
    PiecesConcat(a, b, '\n');
    LoadConcat(Pieces(a, '\n'), Pieces(b, '\n'));
  }

  lemma OneLine(line: string, loaded: Loaded)
    requires Lacks(line, '\n') && LoadLine(Loaded(0, {}), line) == Some(loaded)
    ensures Load(line + "\n") == Some(loaded)
  {
    FirstPiece(line, '\n', "");
    assert line + ['\n'] + "" == line + "\n";
    assert [line] + [] == [line] && [line][..0] == [];
    assert LoadLines([line][..0]) == Some(Loaded(0, {}));
    assert Pieces(line + "\n", '\n') == [line];
  }

  ghost predicate Words(stack: Stack) {
    forall i :: 0 <= i < |stack| ==> stack[i] < WORD
  }

  lemma {:induction false} StackLineText(stack: Stack)
    ensures Lacks(StackLine(stack), '\n')
    ensures StackLine(stack) == "" <==> stack == []
    ensures stack != [] ==> StackLine(stack)[|StackLine(stack)| - 1] == ' ' && StackLine(stack)[0] != '#'
  {
    if stack != [] {
      var n := |stack| - 1;
      StackLineText(stack[..n]);
      HexIsPlain(stack[n]);
    }
  }

  lemma LastPiece(before: string, last: string)
    requires (before == "" || before[|before| - 1] == ' ') && Lacks(last, ' ')
    ensures Pieces(before + last + " ", ' ') == Pieces(before, ' ') + [last]
  {
    PiecesConcat(before, last + " ", ' ');
    FirstPiece(last, ' ', "");
    assert last + [' '] + "" == last + " " && before + last + " " == before + (last + " ");
    assert Pieces("", ' ') == [];
    assert [last] + [] == [last];
  }

  lemma ParseLast(before: seq<string>, stack: Stack, last: string, word: nat)
    requires ParseFrames(before) == Some(stack) && ParseHex(last) == Some(word)
    ensures ParseFrames(before + [last]) == Some(stack + [word])
  {
  }

  lemma LastWord(stack: Stack, word: nat)
    requires word < WORD && ParseFrames(Pieces(StackLine(stack), ' ')) == Some(stack)
    ensures ParseFrames(Pieces(StackLine(stack) + Hex(word) + " ", ' ')) == Some(stack + [word])
  {
    StackLineText(stack);
    HexIsPlain(word);
    LastPiece(StackLine(stack), Hex(word));
    ParseHexRoundTrip(word);
    ParseLast(Pieces(StackLine(stack), ' '), stack, Hex(word), word);
  }

  /** Reading back the line of a stack gives the stack. */
  lemma {:induction false} StackLineRoundTrip(stack: Stack)
    requires Words(stack)
    ensures ParseFrames(Pieces(StackLine(stack), ' ')) == Some(stack)
  {
    if stack != [] {
      var n := |stack| - 1;
      StackLineRoundTrip(stack[..n]);
      LastWord(stack[..n], stack[n]);
      assert stack[..n] + [stack[n]] == stack;
    }
  }

  /** The line of a stack loads as that stack. */
  lemma StackLineLoads(stack: Stack)
    requires Words(stack)
    ensures Load(StackLine(stack) + "\n") == Some(Loaded(0, {stack}))
  {
    StackLineText(stack);
    StackLineRoundTrip(stack);
    var line := StackLine(stack);
    assert {} + {stack} == {stack};
    assert !("#" <= line) && !(ITERATION <= line) by {
      assert ITERATION[0] == '#';
    }
    OneLine(line, Loaded(0, {stack}));
  }

  ghost predicate PlainSymbols(frames: seq<Frame>) {
    forall i :: 0 <= i < |frames| && frames[i].symbol.Some? ==> Lacks(frames[i].symbol.value, '\n')
  }

  /** A comment line loads as nothing: what follows its mark is empty or starts with a digit. */
  lemma FrameLineLoads(frame: Frame)
    requires frame.symbol.Some? ==> Lacks(frame.symbol.value, '\n')
    ensures Load(FrameLine(frame) + "\n") == Some(Loaded(0, {}))
  {
    HexIsPlain(frame.address);
    HexRoundTrip(frame.address);
    var line := FrameLine(frame);
    assert "#" <= line;
    assert !(ITERATION <= line) by {
      assert ITERATION[2] == 'I';
      if |line| >= |ITERATION| && frame.symbol.Some? {
        assert line[2] == Hex(frame.address)[0];
      }
    }
    OneLine(line, Loaded(0, {}));
  }

  lemma {:induction false} FrameLinesLoad(frames: seq<Frame>)
    requires PlainSymbols(frames)
    ensures Load(FrameLines(frames)) == Some(Loaded(0, {}))
    ensures FrameLines(frames) == "" || FrameLines(frames)[|FrameLines(frames)| - 1] == '\n'
  {
    if frames != [] && frames[0].address != 0 {
      FrameLineLoads(frames[0]);
      FrameLinesLoad(frames[1..]);
      LoadAppend(FrameLine(frames[0]) + "\n", FrameLines(frames[1..]));
      assert Both(Loaded(0, {}), Loaded(0, {})) == Loaded(0, {});
    }
  }

  /** The number of frames before the first null one. */
  function Depth(frames: seq<Frame>): (n: nat)
    ensures n <= |frames| && (forall i :: 0 <= i < n ==> frames[i].address != 0) && (n < |frames| ==> frames[n].address == 0)
  {
    if frames == [] || frames[0].address == 0 then 0 else 1 + Depth(frames[1..])
  }

  lemma FrameLineIsOne(frame: Frame)
    requires frame.symbol.Some? ==> Lacks(frame.symbol.value, '\n')
    ensures Lacks(FrameLine(frame), '\n')
  {
    HexIsPlain(frame.address);
  }

  /** The log has one line for each frame before the first null one, in order. */
  lemma {:induction false} OneLinePerFrame(frames: seq<Frame>)
    requires PlainSymbols(frames)
    ensures |Pieces(FrameLines(frames), '\n')| == Depth(frames)
    ensures forall i :: 0 <= i < Depth(frames) ==> Pieces(FrameLines(frames), '\n')[i] == FrameLine(frames[i])
  {
    if frames != [] && frames[0].address != 0 {
      OneLinePerFrame(frames[1..]);
      FrameLineIsOne(frames[0]);
      FirstPiece(FrameLine(frames[0]), '\n', FrameLines(frames[1..]));
      assert FrameLine(frames[0]) + ['\n'] + FrameLines(frames[1..]) == FrameLines(frames);
    }
  }

  /** A decoded frame's line starts with its address, which reads back, and ends with its symbol. */
  lemma FrameLineReads(frame: Frame)
    requires frame.symbol.Some? && frame.address < WORD
    ensures var line, n := FrameLine(frame), 2 + |Hex(frame.address)|;
      && |line| > n && line[..2] == "# " && line[n] == ' ' && line[n + 1..] == frame.symbol.value
      && ParseHex(line[2..n]) == Some(frame.address)
  {
    var line, n := FrameLine(frame), 2 + |Hex(frame.address)|;
    assert line[2..n] == Hex(frame.address);
    ParseHexRoundTrip(frame.address);
  }

  /** A record loads as its stack and, through the blank line that ends it, the empty stack. */
  lemma RecordLoads(stack: Stack, frames: seq<Frame>)
    requires Words(stack) && PlainSymbols(frames)
    ensures Load(RecordText(stack, frames)) == Some(Loaded(0, {stack, []}))
  {
    StackLineLoads(stack);
    FrameLinesLoad(frames);
    StackLineLoads([]);
    assert StackLine([]) + "\n" == "\n";
    var a := StackLine(stack) + "\n";
    LoadAppend(a, FrameLines(frames));
    LoadAppend(a + FrameLines(frames), "\n");
    assert RecordText(stack, frames) == a + FrameLines(frames) + "\n";
    assert {stack} + {} == {stack} && {stack} + {[]} == {stack, []};
  }

  lemma IterationLoads(n: nat)
    ensures Load(IterationText(n)) == Some(Loaded(1, {}))
  {
    DecimalIsPlain(n);
    OneLine(ITERATION + Decimal(n), Loaded(1, {}));
  }
}

/** The injector object and its runs. */
module FaultInjection {
  import opened Options
  import opened FaultText

  datatype Injector = Injector(known: set<Stack>, iteration: nat, log: string)

  /** A new process: rebuild the set from the log, then start an iteration. None: the log does not
      parse and the constructor throws. */
  function Start(log: string): Option<Injector> {
    var loaded := Load(log);
    if loaded.None? then None
    else
      var n := loaded.value.iterations + 1;
      Some(Injector(loaded.value.stacks, n, log + IterationText(n)))
  }

  /** `is_new_stack`: fails a path once and logs it. */
  function Inject(f: Injector, stack: Stack, frames: seq<Frame>): (Injector, bool) {
    if stack in f.known then (f, false)
    else (f.(known := f.known + {stack}, log := f.log + RecordText(stack, frames)), true)
  }

  function Reset(f: Injector): Injector {
    Injector({}, 0, "")
  }

  /** `_cxplat_fault_injection`. */
  class FaultInjector {
    var known: set<Stack>
    var iteration: nat
    var log: string

    ghost function View(): Injector
      reads this
    {
      Injector(known, iteration, log)
    }

    constructor ()
      ensures View() == Injector({}, 0, "")
    {
      known, iteration, log := {}, 0, "";
    }

    /** `load_fault_log` on what the file holds; false is the exception. */
    method LoadFaultLog(text: string) returns (ok: bool)
      requires known == {} && iteration == 0
      modifies this
      ensures ok == Start(text).Some? && (ok ==> View() == Start(text).value)
    {
      var lines := Pieces(text, '\n');
      var i := 0;
      while i < |lines|
        invariant i <= |lines| && LoadLines(lines[..i]) == Some(Loaded(iteration, known))
        modifies this`iteration, this`known
      {
        ghost var before := Loaded(iteration, known);
        assert lines[..i + 1][..i] == lines[..i];
        var line := lines[i];
        if ITERATION <= line {
          iteration := iteration + 1;
        } else if !("#" <= line) {
          var parsed, stack := ParseLine(line);
          if !parsed {
            LoadStops(lines, i + 1);
            return false;
          }
          known := known + {stack};
        }
        i := i + 1;
      }
      assert lines[..i] == lines;
      iteration := iteration + 1;
      log := text + IterationText(iteration);
      ok := true;
    }

    method ParseLine(line: string) returns (parsed: bool, stack: Stack)
      ensures parsed == ParseFrames(Pieces(line, ' ')).Some?
      ensures parsed ==> stack == ParseFrames(Pieces(line, ' ')).value
    {
      var pieces := Pieces(line, ' ');
      parsed, stack := true, [];
      var i := 0;
      while i < |pieces|
        invariant i <= |pieces| && parsed && ParseFrames(pieces[..i]) == Some(stack)
      {
        assert pieces[..i + 1][..i] == pieces[..i];
        var word := ParseHex(pieces[i]);
        if word.None? {
          ParseStops(pieces, i + 1);
          return false, [];
        }
        stack := stack + [word.value];
        i := i + 1;
      }
      assert pieces[..i] == pieces;
    }

    method IsNewStack(stack: Stack, frames: seq<Frame>) returns (newStack: bool)
      modifies this
      ensures (View(), newStack) == Inject(old(View()), stack, frames)
    {
      newStack := false;
      if stack !in known {
        known := known + {stack};
        newStack := true;
      }
      if newStack {
        log := log + RecordText(stack, frames);
      }
    }

    method ResetFaults()
      modifies this
      ensures View() == Reset(old(View()))
    {
      known, iteration, log := {}, 0, "";
    }
  }

  /** A line that does not parse spoils the whole log. */
  lemma {:induction false} LoadStops(lines: seq<string>, k: nat)
    requires k <= |lines| && LoadLines(lines[..k]).None?
    ensures LoadLines(lines).None?
  {
    if k == |lines| {
      assert lines[..k] == lines;
    } else {
      assert lines[..|lines| - 1][..k] == lines[..k];
      LoadStops(lines[..|lines| - 1], k);
    }
  }

  lemma {:induction false} ParseStops(pieces: seq<string>, k: nat)
    requires k <= |pieces| && ParseFrames(pieces[..k]).None?
    ensures ParseFrames(pieces).None?
  {
    if k == |pieces| {
      assert pieces[..k] == pieces;
    } else {
      assert pieces[..|pieces| - 1][..k] == pieces[..k];
      ParseStops(pieces[..|pieces| - 1], k);
    }
  }

  // ----- runs

  datatype Action = InjectFault(stack: Stack, frames: seq<Frame>) | Restart | ResetAll

  /** `failed` is the paths failed since the last reset; `blank` says that a restart has read a record
      since then, and with it the empty stack of a separator line. */
  datatype State = State(f: Injector, failed: set<Stack>, blank: bool)

  ghost function Exec(s: State, a: Action): Option<State> {
    match a
    case InjectFault(stack, frames) =>
      if !(Words(stack) && PlainSymbols(frames)) then None
      else
        var (f, injected) := Inject(s.f, stack, frames);
        Some(State(f, if injected then s.failed + {stack} else s.failed, s.blank))
    case Restart =>
      var f := Start(s.f.log);
      if f.None? then None else Some(State(f.value, s.failed, s.blank || s.failed != {}))
    case ResetAll => Some(State(Reset(s.f), {}, false))
  }

  ghost function Run(actions: seq<Action>): Option<State> {
    if actions == [] then Some(State(Start("").value, {}, false))
    else
      var before := Run(actions[..|actions| - 1]);
      if before.Some? then Exec(before.value, actions[|actions| - 1]) else None
  }

  function Blank(some: bool): set<Stack> {
    if some then {[]} else {}
  }

  ghost predicate Inv(s: State) {
    && s.f.known == s.failed + Blank(s.blank)
    && Records(s.f.log, s.f.iteration, s.failed)
    && (s.blank ==> s.failed != {})
  }

  lemma StartKeeps(s: State)
    requires Inv(s)
    ensures Start(s.f.log).Some? && Inv(State(Start(s.f.log).value, s.failed, s.blank || s.failed != {}))
  {
    var n := s.f.iteration + 1;
    IterationLoads(n);
    LoadAppend(s.f.log, IterationText(n));
    assert s.failed + Blank(s.failed != {}) + {} == s.failed + Blank(s.failed != {});
  }

  lemma InjectKeeps(s: State, stack: Stack, frames: seq<Frame>)
    requires Inv(s) && Words(stack) && PlainSymbols(frames)
    ensures Inv(Exec(s, InjectFault(stack, frames)).value)
  {
    if stack !in s.f.known {
      LogGrows(s.f.log, s.f.iteration, s.failed, stack, frames);
      assert s.f.known + {stack} == s.failed + {stack} + Blank(s.blank);
    }
  }

  /** The log without the rest of the injector: whole lines that load as the recorded stacks. */
  ghost predicate Records(log: string, iteration: nat, failed: set<Stack>) {
    && (log == "" || log[|log| - 1] == '\n')
    && Load(log) == Some(Loaded(iteration, failed + Blank(failed != {})))
  }

  lemma LogGrows(log: string, iteration: nat, failed: set<Stack>, stack: Stack, frames: seq<Frame>)
    requires Records(log, iteration, failed) && Words(stack) && PlainSymbols(frames)
    ensures Records(log + RecordText(stack, frames), iteration, failed + {stack})
  {
    RecordLoads(stack, frames);
    LoadAppend(log, RecordText(stack, frames));
    assert failed + Blank(failed != {}) + {stack, []} == failed + {stack} + Blank(true);
  }

  lemma ClearedKeeps()
    ensures Inv(State(Injector({}, 0, ""), {}, false))
  {
  }

  lemma FirstStartKeeps()
    ensures Start("").Some? && Inv(State(Start("").value, {}, false))
  {
    ClearedKeeps();
    StartKeeps(State(Injector({}, 0, ""), {}, false));
  }

  lemma ExecKeeps(s: State, a: Action)
    requires Inv(s) && Exec(s, a).Some?
    ensures Inv(Exec(s, a).value)
  {
    match a
    case InjectFault(stack, frames) => InjectKeeps(s, stack, frames);
    case Restart => StartKeeps(s);
    case ResetAll => ClearedKeeps();
  }

  lemma {:induction false} RunKeeps(actions: seq<Action>)
    requires Run(actions).Some?
    ensures Inv(Run(actions).value)
  {
    if actions == [] {
      FirstStartKeeps();
    } else {
      var n := |actions| - 1;
      RunKeeps(actions[..n]);
      ExecKeeps(Run(actions[..n]).value, actions[n]);
    }
  }

  /** The paths on which a fault could have been injected since the last reset. */
  function Tried(actions: seq<Action>): set<Stack> {
    if actions == [] then {}
    else
      var before := Tried(actions[..|actions| - 1]);
      match actions[|actions| - 1]
      case InjectFault(stack, _) => before + {stack}
      case Restart => before
      case ResetAll => {}
  }

  lemma {:induction false} TriedIsFailed(actions: seq<Action>, stack: Stack)
    requires Run(actions).Some? && stack != []
    ensures stack in Run(actions).value.failed <==> stack in Tried(actions)
  {
    if actions != [] {
      var n := |actions| - 1;
      TriedIsFailed(actions[..n], stack);
      RunKeeps(actions[..n]);
      TriedStep(Run(actions[..n]).value, actions[n], stack);
    }
  }

  lemma TriedStep(s: State, a: Action, stack: Stack)
    requires Inv(s) && Exec(s, a).Some? && stack != []
    ensures stack in Exec(s, a).value.failed <==>
      !a.ResetAll? && (stack in s.failed || (a.InjectFault? && a.stack == stack))
  {
  }

  /** In every sequence of injections, restarts and resets: a restart never fails to read its own
      log, a non-empty stack is failed exactly the first time it is tried since the last reset, and
      the empty stack exactly when it has not been failed and no record has been read back. */
  lemma FailedOncePerReset(actions: seq<Action>, stack: Stack, frames: seq<Frame>)
    requires Run(actions).Some?
    ensures Start(Run(actions).value.f.log).Some?
    ensures stack != [] ==> (Inject(Run(actions).value.f, stack, frames).1 <==> stack !in Run(actions).value.failed)
    ensures stack != [] ==> (Inject(Run(actions).value.f, stack, frames).1 <==> stack !in Tried(actions))
    ensures Inject(Run(actions).value.f, [], frames).1 <==> [] !in Run(actions).value.failed && !Run(actions).value.blank
  {
    RunKeeps(actions);
    StartKeeps(Run(actions).value);
    if stack != [] {
      TriedIsFailed(actions, stack);
    }
  }

  /** The starts of the program since the log was last cleared. */
  function Starts(actions: seq<Action>): nat {
    if actions == [] then 1
    else
      var before := Starts(actions[..|actions| - 1]);
      if actions[|actions| - 1].Restart? then before + 1 else if actions[|actions| - 1].ResetAll? then 0 else before
  }

  /** The iteration number counts them. */
  lemma {:induction false} IterationCountsStarts(actions: seq<Action>)
    requires Run(actions).Some?
    ensures Run(actions).value.f.iteration == Starts(actions)
  {
    if actions == [] {
      FirstStartKeeps();
      ClearedKeeps();
    } else {
      var n := |actions| - 1;
      IterationCountsStarts(actions[..n]);
      RunKeeps(actions[..n]);
    }
  }

  /** A restart rebuilds exactly the recorded stacks, plus the empty stack if there is any record, and
      the iteration number counts the starts since the log was last cleared. */
  lemma RestartRestores(actions: seq<Action>)
    requires Run(actions).Some?
    ensures var s := Run(actions).value;
      Start(s.f.log).Some? && Start(s.f.log).value.known == s.failed + Blank(s.failed != {})
      && Start(s.f.log).value.iteration == s.f.iteration + 1
  {
    RunKeeps(actions);
    StartKeeps(Run(actions).value);
  }
}
