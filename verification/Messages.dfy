/** The station replies of dccex/protocol/message.go, their parser, and the decoder of
    dccex/protocol/api.go that composes the parser with the framer. */
module Messages {
  import opened Results
  import opened Decimal
  import opened Words
  import opened Framing
  import opened Commands

  /** Unreported is the empty string of the original, Mixed its "MIXED". */
  datatype PowerState = Unreported | Off | On | Overload | Mixed

  datatype Operation = Read | Write

  datatype Event =
    | LocoState(raw: string, cab: int, reg: int, speedByte: int, speed: int, direction: int, emergency: bool, mask: int)
    | TrackPower(raw: string, state: PowerState, track: string)
    | TrackMode(raw: string, track: string, mode: string)
    | CurrentInfo(raw: string, currentMA: int, maxMA: int, tripMA: int, hasLimits: bool)
    | CVResult(raw: string, operation: Operation, cv: int, value: int)
    | AddressResult(raw: string, operation: Operation, address: int)
    | VersionInfo(raw: string)
    | CommandRejected(raw: string)
    | Unknown(raw: string)

  // ------------------------------------------------------------------------ parsing

  predicate IsContinuation(c: char, lo: int, hi: int) {
    lo <= c as int <= hi
  }

  /** The UTF-8 encodings that Unicode permits: no overlong forms, no surrogates. */
  predicate Utf8Valid(s: string) {
    if s == "" then true
    else
      var a := s[0] as int;
      if a < 0x80 then Utf8Valid(s[1..])
      else if 0xC2 <= a <= 0xDF then |s| >= 2 && IsContinuation(s[1], 0x80, 0xBF) && Utf8Valid(s[2..])
      else if 0xE0 <= a <= 0xEF then
        && |s| >= 3
        && IsContinuation(s[1], if a == 0xE0 then 0xA0 else 0x80, if a == 0xED then 0x9F else 0xBF)
        && IsContinuation(s[2], 0x80, 0xBF)
        && Utf8Valid(s[3..])
      else
        && 0xF0 <= a <= 0xF4 && |s| >= 4
        && IsContinuation(s[1], if a == 0xF0 then 0x90 else 0x80, if a == 0xF4 then 0x8F else 0xBF)
        && IsContinuation(s[2], 0x80, 0xBF) && IsContinuation(s[3], 0x80, 0xBF)
        && Utf8Valid(s[4..])
  }

  predicate IsForbidden(c: char) {
    || IsBracket(c)
    || c as int == 127
    || (c < ' ' && c != '\t' && c != '\r' && c != '\n')
  }

  /** What disqualifies a frame before its words are looked at. */
  function Objection(frame: string): Option<WireError> {
    if |frame| > MAX_FRAME_SIZE then Some(FrameTooLarge)
    else if |frame| < 3 || frame[0] != '<' || frame[|frame| - 1] != '>' || !Utf8Valid(frame) then Some(Malformed)
    else if exists k | 0 < k < |frame| - 1 :: IsForbidden(frame[k]) then Some(Malformed)
    else if Fields(frame[1..|frame| - 1]) == [] then Some(Malformed)
    else None
  }

  predicate IsModeChar(c: char) {
    'A' <= c <= 'Z' || c == '_'
  }

  predicate IsTrackChar(c: char) {
    'a' <= c <= 'z' || 'A' <= c <= 'Z' || '0' <= c <= '9' || c == '_'
  }

  predicate IsOutput(track: string) {
    |track| == 1 && 'A' <= track[0] <= 'H'
  }

  function SpeedOf(speedByte: int): int {
    var low := speedByte % 128;
    if low > 1 then low - 1 else 0
  }

  function ParseLoco(raw: string, args: seq<string>): Result<Event> {
    if |args| != 4 then Err(Malformed)
    else
      var cab :- Number(args[0], 1, 10293);
      var reg :- Number(args[1], -1, 2147483647);
      var speedByte :- Number(args[2], 0, 255);
      var mask :- Number(args[3], 0, 4294967295);
      Ok(LocoState(raw, cab, reg, speedByte, SpeedOf(speedByte), speedByte / 128, speedByte % 128 == 1, mask))
  }

  function ParseMode(raw: string, args: seq<string>): Result<Event> {
    if |args| < 2 || |args| > 3 || !IsOutput(args[0]) then Err(Malformed)
    else if exists k | 0 <= k < |args[1]| :: !IsModeChar(args[1][k]) then Err(Malformed)
    else if |args| == 3 then
      var _ :- Number(args[2], 0, 10293);
      Ok(TrackMode(raw, args[0], args[1]))
    else Ok(TrackMode(raw, args[0], args[1]))
  }

  function ParsePower(raw: string, state: PowerState, args: seq<string>): Result<Event> {
    if |args| > 1 then Err(Malformed)
    else if |args| == 0 then Ok(TrackPower(raw, state, "ALL"))
    else if exists k | 0 <= k < |args[0]| :: !IsTrackChar(args[0][k]) then Err(Malformed)
    else Ok(TrackPower(raw, state, args[0]))
  }

  predicate IsLabel(value: string, want: string) {
    value == want || value == "\"" + want + "\""
  }

  function Milliamps(s: string): Result<Int64> {
    Number(s, -2147483648, 2147483647)
  }

  function ParseCurrent(raw: string, args: seq<string>): Result<Event> {
    if |args| == 1 then
      var now :- Milliamps(args[0]);
      Ok(CurrentInfo(raw, now, 0, 0, false))
    else if |args| == 3 then
      var now :- Milliamps(args[0]);
      var max :- Milliamps(args[1]);
      var trip :- Milliamps(args[2]);
      Ok(CurrentInfo(raw, now, max, trip, true))
    else if |args| == 8 then
      if !IsLabel(args[0], "CurrentMAIN") || args[2] != "C" || !IsLabel(args[3], "Milli")
         || !IsLabel(args[4], "0") || !IsLabel(args[6], "1") then Err(Malformed)
      else
        var now :- Milliamps(args[1]);
        var max :- Milliamps(args[5]);
        var trip :- Milliamps(args[7]);
        Ok(CurrentInfo(raw, now, max, trip, true))
    else Err(Malformed)
  }

  function ParseProgramming(raw: string, head: string, args: seq<string>): Result<Event> {
    if (head == "r" || head == "w") && |args| == 1 then
      var n :- Number(args[0], -1, 10293);
      if n == 0 then Err(OutOfRange) else Ok(AddressResult(raw, if head == "w" then Write else Operation.Read, n))
    else if head == "w" || |args| != 2 then Err(Malformed)
    else
      var cv :- Number(args[0], 1, 1024);
      var value :- Number(args[1], -1, 255);
      Ok(CVResult(raw, if head == "r" then Write else Operation.Read, cv, value))
  }

  function ParseWords(raw: string, words: seq<string>): Result<Event>
    requires words != [] && words[0] != ""
  {
    var head, args := words[0], words[1..];
    if head[0] == 'i' then Ok(VersionInfo(raw))
    else if head == "X" then if args == [] then Ok(CommandRejected(raw)) else Err(Malformed)
    else if head == "l" then ParseLoco(raw, args)
    else if head == "=" then ParseMode(raw, args)
    else if head == "p0" then ParsePower(raw, Off, args)
    else if head == "p1" then ParsePower(raw, On, args)
    else if head == "p2" then ParsePower(raw, Overload, args)
    else if head == "c" then ParseCurrent(raw, args)
    else if head == "v" || head == "r" || head == "w" then ParseProgramming(raw, head, args)
    else Ok(Unknown(raw))
  }

  lemma {:induction false} SplitIsNonempty(word: string, s: string)
    ensures forall k | 0 <= k < |Split(word, s)| :: Split(word, s)[k] != ""
    decreases |s|
  {
    if s != "" {
      var w := SpaceWidth(s);
      if w > 0 { SplitIsNonempty("", s[w..]); } else { SplitIsNonempty(word + [s[0]], s[1..]); }
    }
  }

  function Parse(frame: string): Result<Event> {
    match Objection(frame)
    case Some(e) => Err(e)
    case None =>
      SplitIsNonempty("", frame[1..|frame| - 1]);
      ParseWords(frame, Fields(frame[1..|frame| - 1]))
  }

  // --------------------------------------------------------------------- properties

  /** What every parsed reply satisfies. */
  predicate IsReport(e: Event) {
    match e
    case LocoState(_, cab, reg, speedByte, speed, direction, emergency, mask) =>
      && IsCab(cab) && -1 <= reg <= 2147483647 && 0 <= speedByte <= 255 && 0 <= mask <= 4294967295
      && speed == SpeedOf(speedByte) && direction == speedByte / 128 && (emergency <==> speedByte % 128 == 1)
    case TrackPower(_, state, track) =>
      && (state == Off || state == On || state == Overload)
      && track != "" && forall k | 0 <= k < |track| :: IsTrackChar(track[k])
    case TrackMode(_, track, mode) => IsOutput(track) && mode != "" && forall k | 0 <= k < |mode| :: IsModeChar(mode[k])
    case CurrentInfo(_, now, max, trip, hasLimits) =>
      && -2147483648 <= now <= 2147483647 && -2147483648 <= max <= 2147483647 && -2147483648 <= trip <= 2147483647
      && (!hasLimits ==> max == trip == 0)
    case CVResult(_, _, cv, value) => 1 <= cv <= 1024 && -1 <= value <= 255
    case AddressResult(_, _, address) => -1 <= address <= 10293 && address != 0
    case _ => true
  }

  lemma LocoIsReport(raw: string, args: seq<string>)
    requires ParseLoco(raw, args).Ok?
    ensures var e := ParseLoco(raw, args).value; e.LocoState? && e.raw == raw && IsReport(e)
  {
  }

  lemma CurrentIsReport(raw: string, args: seq<string>)
    requires ParseCurrent(raw, args).Ok?
    ensures var e := ParseCurrent(raw, args).value; e.CurrentInfo? && e.raw == raw && IsReport(e)
  {
  }

  lemma ProgrammingIsReport(raw: string, head: string, args: seq<string>)
    requires ParseProgramming(raw, head, args).Ok?
    ensures var e := ParseProgramming(raw, head, args).value; !e.LocoState? && e.raw == raw && IsReport(e)
  {
  }

  lemma WordsAreReport(raw: string, words: seq<string>)
    requires words != [] && forall k | 0 <= k < |words| :: words[k] != ""
    requires ParseWords(raw, words).Ok?
    ensures var e := ParseWords(raw, words).value; e.raw == raw && IsReport(e)
  {
    var head, args := words[0], words[1..];
    if head[0] != 'i' {
      if head == "l" {
        LocoIsReport(raw, args);
      } else if head == "c" {
        CurrentIsReport(raw, args);
      } else if head == "v" || head == "r" || head == "w" {
        ProgrammingIsReport(raw, head, args);
      }
    }
  }

  /** A parsed reply keeps its frame verbatim and only carries values in range: a speed of
      0..126, a direction of 0 or 1, a cab of 1..10293. */
  lemma ParsedIsReport(frame: string)
    requires Parse(frame).Ok?
    ensures var e := Parse(frame).value; e.raw == frame && IsReport(e)
    ensures var e := Parse(frame).value; e.LocoState? ==> 0 <= e.speed <= 126 && (e.direction == 0 || e.direction == 1)
  {
    SplitIsNonempty("", frame[1..|frame| - 1]);
    WordsAreReport(frame, Fields(frame[1..|frame| - 1]));
  }

  predicate IsTextChar(c: char) {
    c as int != 127 && (c >= ' ' || c == '\t' || c == '\r' || c == '\n')
  }

  lemma FrameObjection(f: string)
    requires IsFrame(f, 0, |f|)
    ensures Objection(f) == None <==>
            Utf8Valid(f) && Fields(f[1..|f| - 1]) != [] && forall j | 0 < j < |f| - 1 :: IsTextChar(f[j])
    ensures Objection(f) != Some(FrameTooLarge)
  {
    assert forall j | 0 < j < |f| - 1 :: IsForbidden(f[j]) <==> !IsTextChar(f[j]);
    if |f| == 2 {
      assert f[1..1] == "";
    }
  }

  lemma WordsAreNeverTooLarge(raw: string, words: seq<string>)
    requires words != [] && words[0] != ""
    ensures ParseWords(raw, words) != Err(FrameTooLarge)
  {
  }

  /** A frame that comes out of the framer is never refused for its size or its brackets:
      only an empty body, invalid UTF-8, a control character or a blank body is. */
  lemma FramedIsNotObjectionable(s: string, k: nat)
    requires k < |Items(s)| && Items(s)[k].Framed?
    ensures var f := Items(s)[k].text;
            && 2 <= |f|
            && Parse(f) != Err(FrameTooLarge)
            && (Objection(f) == None <==>
                Utf8Valid(f) && Fields(f[1..|f| - 1]) != [] && forall j | 0 < j < |f| - 1 :: IsTextChar(f[j]))
  {
    ItemsAreKnown(s, k);
    var f := Items(s)[k].text;
    FrameObjection(f);
    if Objection(f) == None {
      SplitIsNonempty("", f[1..|f| - 1]);
      WordsAreNeverTooLarge(f, Fields(f[1..|f| - 1]));
    }
  }

  // --------------------------------------------------------- what a station says

  /** The words by which a station states a report. */
  function ReportWords(e: Event): seq<string> {
    match e
    case LocoState(_, cab, reg, speedByte, _, _, _, mask) => ["l", Render(cab), Render(reg), Render(speedByte), Render(mask)]
    case TrackPower(_, state, track) => [if state == Off then "p0" else if state == On then "p1" else "p2", track]
    case TrackMode(_, track, mode) => ["=", track, mode]
    case CurrentInfo(_, now, max, trip, hasLimits) =>
      if hasLimits then ["c", Render(now), Render(max), Render(trip)] else ["c", Render(now)]
    case CVResult(_, operation, cv, value) => [if operation == Write then "r" else "v", Render(cv), Render(value)]
    case AddressResult(_, operation, address) => [if operation == Write then "w" else "r", Render(address)]
    case VersionInfo(_) => ["i"]
    case CommandRejected(_) => ["X"]
    case Unknown(_) => ["q"]
  }

  function Say(e: Event): string {
    "<" + Join(ReportWords(e)) + ">"
  }

  lemma ReportWordsArePlain(e: Event)
    requires IsReport(e)
    ensures forall k | 0 <= k < |ReportWords(e)| :: IsPlain(ReportWords(e)[k])
  {
    forall n { RenderIsPlain(n); }
    match e
    case TrackPower(_, _, track) => assert forall k | 0 <= k < |track| :: IsTrackChar(track[k]);
    case TrackMode(_, track, mode) => assert forall k | 0 <= k < |mode| :: IsModeChar(mode[k]);
    case _ =>
  }

  lemma {:induction false} JoinOfPlainIsBody(words: seq<string>)
    requires forall k | 0 <= k < |words| :: IsPlain(words[k])
    ensures IsBody(Join(words)) && (words != [] ==> Join(words) != "")
  {
    if |words| > 1 {
      JoinOfPlainIsBody(words[1..]);
    }
  }

  lemma {:induction false} AsciiIsUtf8(s: string)
    requires IsAscii(s)
    ensures Utf8Valid(s)
  {
    if s != "" {
      AsciiIsUtf8(s[1..]);
    }
  }

  lemma BracketedBody(body: string)
    requires IsBody(body) && body != "" && |body| + 2 <= MAX_FRAME_SIZE && Fields(body) != []
    ensures Objection("<" + body + ">") == None
  {
    var f := "<" + body + ">";
    assert f[1..|f| - 1] == body;
    assert forall k | 0 < k < |f| - 1 :: f[k] == body[k - 1];
    AsciiIsUtf8(f);
  }

  lemma ReportWordsParse(e: Event, raw: string)
    requires IsReport(e) && e.raw == raw
    ensures ReportWords(e) != [] && ReportWords(e)[0] != ""
    ensures ParseWords(raw, ReportWords(e)) == Ok(e)
  {
    var words := ReportWords(e);
    match e
    case LocoState(_, cab, reg, speedByte, _, _, _, mask) => {
      NumberReadsRender(cab, 1, 10293);
      NumberReadsRender(reg, -1, 2147483647);
      NumberReadsRender(speedByte, 0, 255);
      NumberReadsRender(mask, 0, 4294967295);
    }
    case TrackPower(_, _, track) => assert words[1..] == [track];
    case TrackMode(_, track, mode) => assert words[1..] == [track, mode];
    case CurrentInfo(_, now, max, trip, _) => {
      NumberReadsRender(now, -2147483648, 2147483647);
      NumberReadsRender(max, -2147483648, 2147483647);
      NumberReadsRender(trip, -2147483648, 2147483647);
    }
    case CVResult(_, _, cv, value) => {
      NumberReadsRender(cv, 1, 1024);
      NumberReadsRender(value, -1, 255);
    }
    case AddressResult(_, _, address) => NumberReadsRender(address, -1, 10293);
    case _ =>
  }

  /** Parsing what a station says about a report gives exactly that report. */
  lemma ParseSay(e: Event)
    requires IsReport(e) && e.raw == Say(e) && |Say(e)| <= MAX_FRAME_SIZE
    ensures Parse(Say(e)) == Ok(e)
  {
    var words := ReportWords(e);
    var body := Join(words);
    ReportWordsArePlain(e);
    FieldsOfJoin(words);
    JoinOfPlainIsBody(words);
    ReportWordsParse(e, Say(e));
    BracketedBody(body);
    assert Say(e)[1..|Say(e)| - 1] == body;
  }

  // ------------------------------------------------------------------------ decoder

  /** What a whole stream decodes to: each frame parsed, each framing error passed on. */
  function Decoded(items: seq<Item>): seq<Result<Event>> {
    seq(|items|, k requires 0 <= k < |items| => match items[k] case Framed(text) => Parse(text) case Rejected(e) => Err(e))
  }

  lemma DecodedConcat(a: seq<Item>, b: seq<Item>)
    ensures Decoded(a + b) == Decoded(a) + Decoded(b)
  {
  }

  class Decoder {
    const framer: Framer

    ghost predicate Valid()
      reads this, framer
    {
      framer.Valid()
    }

    constructor ()
      ensures Valid() && fresh(framer) && framer.stream == ""
    {
      framer := new Framer();
    }

    method Feed(data: string) returns (out: seq<Result<Event>>)
      requires Valid()
      modifies framer
      ensures Valid()
      ensures framer.stream == old(framer.stream) + data
      ensures Decoded(Items(framer.stream)) == Decoded(Items(old(framer.stream))) + out
    {
      var items := framer.Feed(data);
      out := [];
      for k := 0 to |items|
        invariant out == Decoded(items[..k])
      {
        match items[k]
        case Rejected(e) => out := out + [Err(e)];
        case Framed(text) => out := out + [Parse(text)];
      }
      assert items[..|items|] == items;
      DecodedConcat(Items(old(framer.stream)), items);
    }
  }
}
