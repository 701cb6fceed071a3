/** The commands of dccex/protocol/command.go and a reader that inverts their encoders. */
module Commands {
  import opened Results
  import opened Decimal
  import opened Words
  import opened Framing

  datatype Track = All | Main | Prog

  datatype Command =
    | Status
    | TrackQuery
    | EmergencyStop
    | CurrentQuery
    | ReadAddress
    | Power(on: bool, track: Track)
    | LocoRequest(cab: int)
    | Throttle(cab: int, speed: int, dir: int)
    | Function(cab: int, function_: int, state: int)
    | WriteAddress(cab: int)
    | ReadCV(cv: int)
    | WriteCV(cv: int, value: int)
    | ProgramOnMain(cab: int, cv: int, value: int)

  predicate IsCab(cab: int) {
    1 <= cab <= 10293
  }

  predicate InRange(c: Command) {
    match c
    case LocoRequest(cab) => IsCab(cab)
    case Throttle(cab, speed, dir) => IsCab(cab) && -1 <= speed <= 126 && 0 <= dir <= 1
    case Function(cab, function_, state) => IsCab(cab) && 0 <= function_ <= 68 && 0 <= state <= 1
    case WriteAddress(cab) => IsCab(cab)
    case ReadCV(cv) => 1 <= cv <= 1024
    case WriteCV(cv, value) => 1 <= cv <= 1024 && 0 <= value <= 255
    case ProgramOnMain(cab, cv, value) => IsCab(cab) && 1 <= cv <= 1024 && 0 <= value <= 255
    case _ => true
  }

  function Bit(on: bool): string {
    if on then "1" else "0"
  }

  /** The Encode functions, one case each. */
  function Encode(c: Command): Result<string> {
    if !InRange(c) then Err(OutOfRange)
    else Ok(
      match c
      case Status => "<s>"
      case TrackQuery => "<=>"
      case EmergencyStop => "<!>"
      case CurrentQuery => "<c>"
      case ReadAddress => "<R>"
      case Power(on, track) =>
        (match track
         case All => "<" + Bit(on) + ">"
         case Main => "<" + Bit(on) + " MAIN>"
         case Prog => "<" + Bit(on) + " PROG>")
      case LocoRequest(cab) => "<t " + Render(cab) + ">"
      case Throttle(cab, speed, dir) => "<t " + Render(cab) + " " + Render(speed) + " " + Render(dir) + ">"
      case Function(cab, function_, state) => "<F " + Render(cab) + " " + Render(function_) + " " + Render(state) + ">"
      case WriteAddress(cab) => "<W " + Render(cab) + ">"
      case ReadCV(cv) => "<R " + Render(cv) + ">"
      case WriteCV(cv, value) => "<W " + Render(cv) + " " + Render(value) + ">"
      case ProgramOnMain(cab, cv, value) => "<w " + Render(cab) + " " + Render(cv) + " " + Render(value) + ">")
  }

  lemma Numerals()
    ensures Render(-1) == "-1" && Render(29) == "29" && Render(68) == "68" && Render(126) == "126"
    ensures Render(255) == "255" && Render(1024) == "1024" && Render(10293) == "10293"
    ensures Render(0) == "0" && Render(1) == "1" && Render(3) == "3"
  {
    assert Digits(102) == "102" && Digits(1029) == "1029";
  }

  lemma ThrottleText(cab: int, speed: int, dir: int, a: string, b: string, c: string)
    requires InRange(Throttle(cab, speed, dir)) && Render(cab) == a && Render(speed) == b && Render(dir) == c
    ensures Encode(Throttle(cab, speed, dir)) == Ok("<t " + a + " " + b + " " + c + ">")
  {
  }

  lemma FunctionText(cab: int, n: int, state: int, a: string, b: string, c: string)
    requires InRange(Function(cab, n, state)) && Render(cab) == a && Render(n) == b && Render(state) == c
    ensures Encode(Function(cab, n, state)) == Ok("<F " + a + " " + b + " " + c + ">")
  {
  }

  /** The texts of commands without numbers, letter by letter. */
  lemma PlainTexts()
    ensures Encode(Status) == Ok("<s>") && Encode(TrackQuery) == Ok("<=>") && Encode(EmergencyStop) == Ok("<!>")
    ensures Encode(CurrentQuery) == Ok("<c>") && Encode(ReadAddress) == Ok("<R>")
    ensures Encode(Power(true, All)) == Ok("<1>") && Encode(Power(false, All)) == Ok("<0>")
    ensures Encode(Power(true, Main)) == Ok("<1 MAIN>") && Encode(Power(false, Prog)) == Ok("<0 PROG>")
  {
    assert "<" + "1" + ">" == "<1>" && "<" + "0" + ">" == "<0>";
    assert "<" + "1" + " MAIN>" == "<1 MAIN>" && "<" + "0" + " PROG>" == "<0 PROG>";
  }

  /** The texts of some commands with numbers. */
  lemma NumberedTexts()
    ensures Encode(LocoRequest(3)) == Ok("<t 3>")
    ensures Encode(Throttle(3, -1, 1)) == Ok("<t 3 -1 1>")
    ensures Encode(Throttle(10293, 126, 0)) == Ok("<t 10293 126 0>")
    ensures Encode(Function(3, 0, 1)) == Ok("<F 3 0 1>")
    ensures Encode(Function(3, 68, 0)) == Ok("<F 3 68 0>")
  {
    Numerals();
    ThrottleText(3, -1, 1, "3", "-1", "1");
    ThrottleText(10293, 126, 0, "10293", "126", "0");
    FunctionText(3, 0, 1, "3", "0", "1");
    FunctionText(3, 68, 0, "3", "68", "0");
    assert "<t " + "3" + ">" == "<t 3>" && "<t " + "3" + " " + "-1" + " " + "1" + ">" == "<t 3 -1 1>";
    assert "<t " + "10293" + " " + "126" + " " + "0" + ">" == "<t 10293 126 0>";
    assert "<F " + "3" + " " + "0" + " " + "1" + ">" == "<F 3 0 1>";
    assert "<F " + "3" + " " + "68" + " " + "0" + ">" == "<F 3 68 0>";
  }

  /** Which arguments the encoders accept. */
  lemma EncodersAccept(cab: int, a: int, b: int)
    ensures Encode(LocoRequest(cab)).Ok? <==> 1 <= cab <= 10293
    ensures Encode(WriteAddress(cab)).Ok? <==> 1 <= cab <= 10293
    ensures Encode(Throttle(cab, a, b)).Ok? <==> 1 <= cab <= 10293 && -1 <= a <= 126 && (b == 0 || b == 1)
    ensures Encode(Function(cab, a, b)).Ok? <==> 1 <= cab <= 10293 && 0 <= a <= 68 && (b == 0 || b == 1)
    ensures Encode(ReadCV(a)).Ok? <==> 1 <= a <= 1024
    ensures Encode(WriteCV(a, b)).Ok? <==> 1 <= a <= 1024 && 0 <= b <= 255
    ensures Encode(ProgramOnMain(cab, a, b)).Ok? <==> 1 <= cab <= 10293 && 1 <= a <= 1024 && 0 <= b <= 255
  {
  }

  // ------------------------------------------------------------------ reading back

  function ReadPower(on: bool, args: seq<string>): Option<Command> {
    if args == [] then Some(Power(on, All))
    else if args == ["MAIN"] then Some(Power(on, Main))
    else if args == ["PROG"] then Some(Power(on, Prog))
    else None
  }

  /** All arguments read as decimal numbers, or nothing. */
  function Numbers(args: seq<string>): Option<seq<int>> {
    if args == [] then Some([])
    else
      match (Number(args[0], -1, 10293), Numbers(args[1..]))
      case (Ok(n), Some(ns)) => Some([n] + ns)
      case _ => None
  }

  /** The command that the words of a frame body stand for. */
  function Read(words: seq<string>): Option<Command> {
    if words == [] then None
    else if words[0] == "0" || words[0] == "1" then ReadPower(words[0] == "1", words[1..])
    else
      match Numbers(words[1..])
      case None => None
      case Some(ns) =>
        if words[0] == "s" && ns == [] then Some(Status)
        else if words[0] == "=" && ns == [] then Some(TrackQuery)
        else if words[0] == "!" && ns == [] then Some(EmergencyStop)
        else if words[0] == "c" && ns == [] then Some(CurrentQuery)
        else if words[0] == "R" && ns == [] then Some(ReadAddress)
        else if words[0] == "R" && |ns| == 1 then Some(ReadCV(ns[0]))
        else if words[0] == "t" && |ns| == 1 then Some(LocoRequest(ns[0]))
        else if words[0] == "t" && |ns| == 3 then Some(Throttle(ns[0], ns[1], ns[2]))
        else if words[0] == "F" && |ns| == 3 then Some(Function(ns[0], ns[1], ns[2]))
        else if words[0] == "W" && |ns| == 1 then Some(WriteAddress(ns[0]))
        else if words[0] == "W" && |ns| == 2 then Some(WriteCV(ns[0], ns[1]))
        else if words[0] == "w" && |ns| == 3 then Some(ProgramOnMain(ns[0], ns[1], ns[2]))
        else None
  }

  function Decode(frame: string): Option<Command> {
    if |frame| < 2 then None else Read(Fields(frame[1..|frame| - 1]))
  }

  // -------------------------------------------------------------------- round trip

  /** The opcode word and the numeric arguments of a command. */
  function Opcode(c: Command): string {
    match c
    case Status => "s"
    case TrackQuery => "="
    case EmergencyStop => "!"
    case CurrentQuery => "c"
    case ReadAddress => "R"
    case Power(on, _) => Bit(on)
    case LocoRequest(_) => "t"
    case Throttle(_, _, _) => "t"
    case Function(_, _, _) => "F"
    case WriteAddress(_) => "W"
    case ReadCV(_) => "R"
    case WriteCV(_, _) => "W"
    case ProgramOnMain(_, _, _) => "w"
  }

  function Arguments(c: Command): seq<int> {
    match c
    case LocoRequest(cab) => [cab]
    case Throttle(cab, speed, dir) => [cab, speed, dir]
    case Function(cab, function_, state) => [cab, function_, state]
    case WriteAddress(cab) => [cab]
    case ReadCV(cv) => [cv]
    case WriteCV(cv, value) => [cv, value]
    case ProgramOnMain(cab, cv, value) => [cab, cv, value]
    case _ => []
  }

  function Rendered(ns: seq<int>): (ws: seq<string>)
    ensures |ws| == |ns| && forall k | 0 <= k < |ns| :: ws[k] == Render(ns[k])
  {
    seq(|ns|, k requires 0 <= k < |ns| => Render(ns[k]))
  }

  /** The words of a command: its opcode and its rendered arguments. */
  function WordsOf(c: Command): seq<string> {
    [Opcode(c)] + match c
                  case Power(_, Main) => ["MAIN"]
                  case Power(_, Prog) => ["PROG"]
                  case _ => Rendered(Arguments(c))
  }

  lemma RenderIsPlain(n: int)
    ensures IsPlain(Render(n))
  {
    RenderDenotes(n);
  }

  lemma WordsArePlain(c: Command)
    ensures forall k | 0 <= k < |WordsOf(c)| :: IsPlain(WordsOf(c)[k])
  {
    forall n { RenderIsPlain(n); }
  }

  lemma JoinTwo(a: string, b: string)
    ensures Join([a, b]) == a + " " + b
  {
    assert [a, b][1..] == [b];
  }

  lemma JoinThree(a: string, b: string, c: string)
    ensures Join([a, b, c]) == a + " " + b + " " + c
  {
    assert [a, b, c][1..] == [b, c];
    JoinTwo(b, c);
  }

  lemma JoinFour(a: string, b: string, c: string, d: string)
    ensures Join([a, b, c, d]) == a + " " + b + " " + c + " " + d
  {
    assert [a, b, c, d][1..] == [b, c, d];
    JoinThree(b, c, d);
  }

  lemma Bracket(op: string, a: string, b: string, c: string)
    ensures "<" + (op + " " + a) + ">" == "<" + op + " " + a + ">"
    ensures "<" + (op + " " + a + " " + b) + ">" == "<" + op + " " + a + " " + b + ">"
    ensures "<" + (op + " " + a + " " + b + " " + c) + ">" == "<" + op + " " + a + " " + b + " " + c + ">"
  {
  }

  lemma Openings()
    ensures "<t " == "<" + "t" + " " && "<F " == "<" + "F" + " " && "<R " == "<" + "R" + " "
    ensures "<W " == "<" + "W" + " " && "<w " == "<" + "w" + " "
    ensures "<s>" == "<" + "s" + ">" && "<=>" == "<" + "=" + ">" && "<!>" == "<" + "!" + ">"
    ensures "<c>" == "<" + "c" + ">" && "<R>" == "<" + "R" + ">"
  {
  }

  lemma EncodeJoinsPower(on: bool)
    ensures forall track :: Encode(Power(on, track)) == Ok("<" + Join(WordsOf(Power(on, track))) + ">")
  {
    Bracket(Bit(on), "MAIN", "", "");
    Bracket(Bit(on), "PROG", "", "");
    JoinTwo(Bit(on), "MAIN");
    JoinTwo(Bit(on), "PROG");
    assert "<" + Bit(on) + " MAIN>" == "<" + Bit(on) + " " + "MAIN" + ">";
    assert "<" + Bit(on) + " PROG>" == "<" + Bit(on) + " " + "PROG" + ">";
    assert WordsOf(Power(on, All)) == [Bit(on)];
    assert WordsOf(Power(on, Main)) == [Bit(on), "MAIN"];
    assert WordsOf(Power(on, Prog)) == [Bit(on), "PROG"];
  }

  /** An encoded command is its words, joined by blanks and bracketed. */
  lemma EncodeJoinsWords(c: Command)
    requires InRange(c)
    ensures Encode(c) == Ok("<" + Join(WordsOf(c)) + ">")
  {
    var ws := WordsOf(c);
    if c.Power? {
      EncodeJoinsPower(c.on);
    } else if |ws| == 1 {
      Openings();
      assert ws == [Opcode(c)];
    } else {
      Openings();
      var a, b, d := ws[1], if |ws| > 2 then ws[2] else "", if |ws| > 3 then ws[3] else "";
      Bracket(ws[0], a, b, d);
      if |ws| == 2 {
        assert ws == [ws[0], a];
        JoinTwo(ws[0], a);
      } else if |ws| == 3 {
        assert ws == [ws[0], a, b];
        JoinThree(ws[0], a, b);
      } else {
        assert ws == [ws[0], a, b, d];
        JoinFour(ws[0], a, b, d);
      }
    }
  }

  lemma {:induction false} NumbersOfRendered(ns: seq<int>)
    requires forall k | 0 <= k < |ns| :: -1 <= ns[k] <= 10293
    ensures Numbers(Rendered(ns)) == Some(ns)
  {
    if ns != [] {
      assert Rendered(ns)[1..] == Rendered(ns[1..]);
      NumberReadsRender(ns[0], -1, 10293);
      NumbersOfRendered(ns[1..]);
      assert [ns[0]] + ns[1..] == ns;
    }
  }

  lemma ReadPowerWords(c: Command)
    requires c.Power?
    ensures Read(WordsOf(c)) == Some(c)
  {
    assert c.track == All ==> WordsOf(c)[1..] == [];
    assert c.track == Main ==> WordsOf(c)[1..] == ["MAIN"];
    assert c.track == Prog ==> WordsOf(c)[1..] == ["PROG"];
  }

  /** The opcode and the numbers tell the command. */
  lemma ReadNumbered(c: Command, words: seq<string>)
    requires !c.Power? && words != [] && words[0] == Opcode(c) && Numbers(words[1..]) == Some(Arguments(c))
    ensures Read(words) == Some(c)
  {
  }

  lemma ReadWords(c: Command)
    requires InRange(c)
    ensures Read(WordsOf(c)) == Some(c)
  {
    if c.Power? {
      ReadPowerWords(c);
    } else {
      NumbersOfRendered(Arguments(c));
      assert WordsOf(c)[1..] == Rendered(Arguments(c));
      ReadNumbered(c, WordsOf(c));
    }
  }

  /** Splitting and reading the body of an encoded command gives the command back. */
  lemma DecodeEncode(c: Command)
    ensures Encode(c).Ok? <==> InRange(c)
    ensures Encode(c).Ok? ==> Decode(Encode(c).value) == Some(c)
  {
    if InRange(c) {
      EncodeJoinsWords(c);
      WordsArePlain(c);
      FieldsOfJoin(WordsOf(c));
      ReadWords(c);
      var body := Join(WordsOf(c));
      var frame := "<" + body + ">";
      assert frame[1..|frame| - 1] == body;
    }
  }

  function TrackName(track: Track): string {
    match track
    case All => "ALL"
    case Main => "MAIN"
    case Prog => "PROG"
  }

  /** The power encoder as its callers see it, with the track as a text. */
  function EncodePower(on: bool, track: string): Result<string> {
    if track == "ALL" then Encode(Power(on, All))
    else if track == "MAIN" then Encode(Power(on, Main))
    else if track == "PROG" then Encode(Power(on, Prog))
    else Err(OutOfRange)
  }

  /** Each of the three tracks is encoded so that it can be read back. */
  lemma PowerTrackDecodes(on: bool, track: Track)
    ensures EncodePower(on, TrackName(track)).Ok?
    ensures Decode(EncodePower(on, TrackName(track)).value) == Some(Power(on, track))
  {
    DecodeEncode(Power(on, track));
  }

  /** Every text that is no track's name is refused as out of range, and no other. */
  lemma OtherTracksAreRefused(on: bool, track: string)
    ensures EncodePower(on, track) == Err(OutOfRange) <==> forall t: Track :: TrackName(t) != track
  {
    assert TrackName(All) == "ALL" && TrackName(Main) == "MAIN" && TrackName(Prog) == "PROG";
  }

  /** No two commands, from whichever encoders, share their text. */
  lemma EncodersAreInjective(c: Command, d: Command)
    requires Encode(c).Ok? && Encode(c) == Encode(d)
    ensures c == d
  {
    DecodeEncode(c);
    DecodeEncode(d);
  }

  // ------------------------------------------------------------------ on the wire

  predicate IsAscii(s: string) {
    forall k | 0 <= k < |s| :: s[k] as int <= 127
  }

  predicate IsBody(s: string) {
    forall k | 0 <= k < |s| :: ' ' <= s[k] <= '~' && !IsBracket(s[k])
  }

  lemma {:induction false} JoinIsBody(words: seq<string>)
    requires forall k | 0 <= k < |words| :: IsPlain(words[k]) && |words[k]| <= 6
    ensures IsBody(Join(words)) && |Join(words)| <= 7 * |words|
  {
    if |words| > 1 {
      JoinIsBody(words[1..]);
    }
  }

  lemma WordsAreShort(c: Command)
    requires InRange(c)
    ensures |WordsOf(c)| <= 4 && forall k | 0 <= k < |WordsOf(c)| :: |WordsOf(c)[k]| <= 6
  {
    forall n | -1 <= n <= 10293 ensures |Render(n)| <= 6 { RenderDenotes(n); }
  }

  lemma BodyIsFrame(body: string)
    requires IsBody(body) && 1 <= |body| <= 28
    ensures var f := "<" + body + ">"; IsFrame(f, 0, |f|) && IsAscii(f) && 3 <= |f| <= 30
  {
  }

  /** Every encoder output is one complete ASCII frame, far below the framer's bound. */
  lemma EncodedIsFrame(c: Command)
    requires InRange(c)
    ensures var f := Encode(c).value; IsFrame(f, 0, |f|) && IsAscii(f) && 3 <= |f| <= 30
  {
    var ws := WordsOf(c);
    WordsArePlain(c);
    WordsAreShort(c);
    JoinIsBody(ws);
    assert IsPlain(ws[0]);
    BodyIsFrame(Join(ws));
    EncodeJoinsWords(c);
  }

  function Lines(frames: seq<string>): string {
    if frames == [] then "" else Lines(frames[..|frames| - 1]) + frames[|frames| - 1] + "\n"
  }

  function AsItems(frames: seq<string>): seq<Item> {
    seq(|frames|, k requires 0 <= k < |frames| => Framed(frames[k]))
  }

  /** Inside a frame that starts on a clean stream nothing is delivered yet. */
  lemma {:induction false} FrameInProgress(s: string, f: string, m: nat)
    requires Unfinished(s) == "" && IsFrame(f, 0, |f|) && 0 < m < |f|
    ensures Unfinished(s + f[..m]) == f[..m] && Items(s + f[..m]) == Items(s)
  {
    var t, b := s + f[..m - 1], f[m - 1];
    PrefixSnoc(f, m - 1);
    Assoc(s, f[..m - 1], [b]);
    Snoc(t, b);
    if m == 1 {
      assert t == s;
    } else {
      FrameInProgress(s, f, m - 1);
    }
  }

  lemma WholeFrame(s: string, f: string)
    requires Unfinished(s) == "" && IsFrame(f, 0, |f|)
    ensures Unfinished(s + f) == "" && Items(s + f) == Items(s) + [Framed(f)]
  {
    var m := |f| - 1;
    FrameInProgress(s, f, m);
    Snoc(s + f[..m], f[m]);
    PrefixSnoc(f, m);
    assert f[..m + 1] == f;
    Assoc(s, f[..m], [f[m]]);
  }

  lemma AsItemsSnoc(frames: seq<string>)
    requires frames != []
    ensures AsItems(frames) == AsItems(frames[..|frames| - 1]) + [Framed(frames[|frames| - 1])]
  {
  }

  /** Newline-joined frames come back from the framer unchanged. */
  lemma {:induction false} LinesComeBack(frames: seq<string>)
    requires forall k | 0 <= k < |frames| :: IsFrame(frames[k], 0, |frames[k]|)
    ensures Items(Lines(frames)) == AsItems(frames) && Unfinished(Lines(frames)) == ""
  {
    if frames != [] {
      var rest, f := frames[..|frames| - 1], frames[|frames| - 1];
      LinesComeBack(rest);
      WholeFrame(Lines(rest), f);
      Snoc(Lines(rest) + f, '\n');
      AsItemsSnoc(frames);
    }
  }
}
