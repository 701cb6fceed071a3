/** The grammar of the station's replies: a relation between reports and words that lists every
    accepted form, and the parser proved to accept exactly these. */
module Replies {
  import opened Results
  import opened Decimal
  import opened Words
  import opened Unicode
  import opened Framing
  import opened Messages

  /** The word is the decimal notation of n, and n is within the bounds. */
  predicate Names(word: string, n: int, lo: Int64, hi: Int64) {
    IsNumeral(word) && Value(word) == n && lo <= n <= hi
  }

  predicate NamesSome(word: string, lo: Int64, hi: Int64) {
    IsNumeral(word) && lo <= Value(word) <= hi
  }

  /** A current in milliamperes. */
  predicate NamesCurrent(word: string, n: int) {
    Names(word, n, -2147483648, 2147483647)
  }

  /** The byte is made of a direction and a code: 0 for a stop, 1 for an emergency stop, and
      otherwise one more than the speed. */
  predicate IsSpeedByte(speedByte: int, speed: int, direction: int, emergency: bool) {
    && (direction == 0 || direction == 1) && 0 <= speed <= 126 && (emergency ==> speed == 0)
    && speedByte == 128 * direction + if emergency then 1 else if speed == 0 then 0 else speed + 1
  }

  predicate AreTrackChars(track: string) {
    forall k | 0 <= k < |track| :: IsTrackChar(track[k])
  }

  predicate AreModeChars(mode: string) {
    forall k | 0 <= k < |mode| :: IsModeChar(mode[k])
  }

  predicate IsQuotedOrBare(word: string, label_: string) {
    word == label_ || word == "\"" + label_ + "\""
  }

  predicate HeadOfPower(head: string, state: PowerState) {
    (head == "p0" && state == Off) || (head == "p1" && state == On) || (head == "p2" && state == Overload)
  }

  /** The heads that stand for something; a word that begins with an i is a version. */
  predicate IsHead(head: string) {
    head in ["X", "l", "=", "p0", "p1", "p2", "c", "v", "r", "w"]
  }

  /** The words state the report: every form of every reply. */
  predicate Says(e: Event, words: seq<string>)
    requires words != [] && words[0] != ""
  {
    var head := words[0];
    match e
    case LocoState(_, cab, reg, speedByte, speed, direction, emergency, mask) =>
      && head == "l" && |words| == 5
      && Names(words[1], cab, 1, 10293) && Names(words[2], reg, -1, 2147483647)
      && Names(words[3], speedByte, 0, 255) && IsSpeedByte(speedByte, speed, direction, emergency)
      && Names(words[4], mask, 0, 4294967295)
    case TrackPower(_, state, track) =>
      && HeadOfPower(head, state)
      && ((|words| == 1 && track == "ALL") || (|words| == 2 && words[1] == track && AreTrackChars(track)))
    case TrackMode(_, track, mode) =>
      && head == "=" && (|words| == 3 || (|words| == 4 && NamesSome(words[3], 0, 10293)))
      && words[1] == track && IsOutput(track) && words[2] == mode && AreModeChars(mode)
    case CurrentInfo(_, now, max, trip, hasLimits) =>
      && head == "c"
      && if !hasLimits then |words| == 2 && NamesCurrent(words[1], now) && max == trip == 0
         else if |words| == 4 then
           NamesCurrent(words[1], now) && NamesCurrent(words[2], max) && NamesCurrent(words[3], trip)
         else
           && |words| == 9
           && IsQuotedOrBare(words[1], "CurrentMAIN") && NamesCurrent(words[2], now)
           && words[3] == "C" && IsQuotedOrBare(words[4], "Milli")
           && IsQuotedOrBare(words[5], "0") && NamesCurrent(words[6], max)
           && IsQuotedOrBare(words[7], "1") && NamesCurrent(words[8], trip)
    case CVResult(_, operation, cv, value) =>
      && ((head == "r" && operation == Write) || (head == "v" && operation == Operation.Read))
      && |words| == 3 && Names(words[1], cv, 1, 1024) && Names(words[2], value, -1, 255)
    case AddressResult(_, operation, address) =>
      && ((head == "w" && operation == Write) || (head == "r" && operation == Operation.Read))
      && |words| == 2 && Names(words[1], address, -1, 10293) && address != 0
    case VersionInfo(_) => head[0] == 'i'
    case CommandRejected(_) => words == ["X"]
    case Unknown(_) => head[0] != 'i' && !IsHead(head)
  }

  lemma SpeedByteExactly(speedByte: int, speed: int, direction: int, emergency: bool)
    requires 0 <= speedByte <= 255
    ensures IsSpeedByte(speedByte, speed, direction, emergency) <==>
            speed == SpeedOf(speedByte) && direction == speedByte / 128 && (emergency <==> speedByte % 128 == 1)
  {
  }

  /** The reader of numbers, as a relation. */
  lemma NumberNames(word: string, lo: Int64, hi: Int64)
    ensures Number(word, lo, hi).Ok? ==> Names(word, Number(word, lo, hi).value, lo, hi)
    ensures NamesSome(word, lo, hi) ==> Number(word, lo, hi) == Ok(Value(word))
  {
    NumberIsExact(word, lo, hi);
    if NamesSome(word, lo, hi) {
      var n: Int64 := Value(word);
      assert Number(word, lo, hi) == Ok(n);
    }
  }

  lemma LocoExactly(raw: string, words: seq<string>, e: Event)
    requires words != [] && words[0] == "l"
    ensures ParseLoco(raw, words[1..]) == Ok(e) <==> e.raw == raw && Says(e, words)
  {
    if |words| == 5 {
      NumberNames(words[1], 1, 10293);
      NumberNames(words[2], -1, 2147483647);
      NumberNames(words[3], 0, 255);
      NumberNames(words[4], 0, 4294967295);
      if NamesSome(words[3], 0, 255) && e.LocoState? {
        SpeedByteExactly(Value(words[3]), e.speed, e.direction, e.emergency);
      }
    }
  }

  lemma ModeExactly(raw: string, words: seq<string>, e: Event)
    requires words != [] && words[0] == "="
    ensures ParseMode(raw, words[1..]) == Ok(e) <==> e.raw == raw && Says(e, words)
  {
    if |words| == 4 {
      NumberNames(words[3], 0, 10293);
    }
  }

  lemma PowerExactly(raw: string, state: PowerState, words: seq<string>, e: Event)
    requires words != [] && HeadOfPower(words[0], state)
    ensures ParsePower(raw, state, words[1..]) == Ok(e) <==> e.raw == raw && Says(e, words)
  {
  }

  lemma CurrentExactly(raw: string, words: seq<string>, e: Event)
    requires words != [] && words[0] == "c"
    ensures ParseCurrent(raw, words[1..]) == Ok(e) <==> e.raw == raw && Says(e, words)
  {
    forall k | 0 <= k < |words| {
      NumberNames(words[k], -2147483648, 2147483647);
    }
  }

  lemma ProgrammingExactly(raw: string, words: seq<string>, e: Event)
    requires words != [] && (words[0] == "v" || words[0] == "r" || words[0] == "w")
    ensures ParseProgramming(raw, words[0], words[1..]) == Ok(e) <==> e.raw == raw && Says(e, words)
  {
    if |words| == 2 {
      NumberNames(words[1], -1, 10293);
    } else if |words| == 3 {
      NumberNames(words[1], 1, 1024);
      NumberNames(words[2], -1, 255);
    }
  }

  lemma WordsExactly(raw: string, words: seq<string>, e: Event)
    requires words != [] && words[0] != ""
    ensures ParseWords(raw, words) == Ok(e) <==> e.raw == raw && Says(e, words)
  {
    var head := words[0];
    if head == "l" {
      LocoExactly(raw, words, e);
    } else if head == "=" {
      ModeExactly(raw, words, e);
    } else if head == "p0" {
      PowerExactly(raw, Off, words, e);
    } else if head == "p1" {
      PowerExactly(raw, On, words, e);
    } else if head == "p2" {
      PowerExactly(raw, Overload, words, e);
    } else if head == "c" {
      CurrentExactly(raw, words, e);
    } else if head == "v" || head == "r" || head == "w" {
      ProgrammingExactly(raw, words, e);
    }
  }

  /** The parser accepts exactly what the grammar lists: a frame without objection parses to a
      report if and only if its words state that report. */
  lemma ParsesExactly(frame: string, e: Event)
    requires Objection(frame) == None
    ensures var words := Fields(frame[1..|frame| - 1]);
            && words != [] && words[0] != ""
            && (Parse(frame) == Ok(e) <==> e.raw == frame && Says(e, words))
  {
    SplitIsNonempty("", frame[1..|frame| - 1]);
    WordsExactly(frame, Fields(frame[1..|frame| - 1]), e);
  }

  predicate IsAllowed(c: char) {
    c != '<' && c != '>' && c as int != 127 && (c as int >= 32 || c == '\t' || c == '\r' || c == '\n')
  }

  /** A text of 3 to 4096 bytes in brackets that encodes some text, with no bracket and no control
      character but tab and line breaks inside, and at least one word. */
  ghost predicate IsAcceptable(frame: string) {
    && 3 <= |frame| <= 4096 && frame[0] == '<' && frame[|frame| - 1] == '>'
    && IsEncoding(frame)
    && (forall k | 0 < k < |frame| - 1 :: IsAllowed(frame[k]))
    && Fields(frame[1..|frame| - 1]) != []
  }

  /** Exactly the acceptable texts get as far as their words, and only size makes one too large. */
  lemma ObjectsExactly(frame: string)
    ensures Objection(frame) == None <==> IsAcceptable(frame)
    ensures Objection(frame) == Some(FrameTooLarge) <==> |frame| > 4096
  {
    ValidExactly(frame);
    assert forall k | 0 < k < |frame| - 1 :: IsForbidden(frame[k]) <==> !IsAllowed(frame[k]);
  }
}
