# Verified model of the DCC-EX throttle client

A Dafny model of the parts of Go_DCC_Ex_Driver on which the safety of a running layout rests, with
proofs about all inputs, all transport behaviours and all runs.

* **Wire** (`Framing`, `Decimal`, `Words`, `Unicode`, `Commands`, `Messages`, `Replies`): the
  resynchronizing framer, the decimal reader with its 64-bit arithmetic, the command encoders, the
  reply parser with the grammar it accepts, and the decoder.
* **Client** (`Writes`, `Sends`, `Reading`, `Delivery`): serialized writes as an interleaving of
  senders, writer goroutines, timeouts and closers over a connection that takes as many bytes as it
  likes; the read loop over any sequence of reads; and the way from the controller's log to what a
  station reads.
* **Controller** (`Panel`, `Controllers` and what builds on them): `Panel` is the reference, a plain
  map of locomotives in which every operation is a function. `Controllers.Controller` is the
  register file of the original, with the focused cab in registers and a map whose entry for it goes
  stale. `Controller.Do` refines the reference for every operation and every sequence of transport
  answers, `Controller.Execute` carries that to runs, and `Structure`, `Layouts`, `Focus`,
  `Effects`, `Agreement`, `Motion`, `Movement`, `Speeds`, `Paces`, `Pairing`, `Indicators`,
  `Transcripts`, `Refusals`, `Tabs` and `Looks` prove what holds of every operation and over whole
  runs (`Runs`). `Witnesses` holds concrete runs, and `Buttons` the button that presses and releases
  functions.
* **Session** (`Saving`, `Shutdown`, `Admissions`, `Sessions`, `Mailbox`): saving of the layout, the
  bounded queue with its shutdown drain, both together, and the one-slot mailbox; queue and mailbox as
  interleaved transition systems.
* **Capabilities** (`Catalogs`, `Discoveries`, `Attempts`): catalogs as heap objects that may be
  shared, and the token and deadline state machine that keeps copies of them.
* `Results`, `Sets` and `History` hold what the others share.

Conventions. A byte is the `char` of its value. Times are integers in nanoseconds; an optional time
stands for Go's zero time. The transport is an arbitrary function from the position in the log of
what was handed to it to success or failure, so a theorem for all such functions is one for all
failures at all moments. A name is a sequence of code points in which a byte that is not valid UTF-8
counts as -1.

Findings, each stated by a lemma:

* `SelectCab` forgets the queued speed of the cab it leaves but keeps showing it, so a locomotive
  that still moves may show 0 and have its tab closed (`Witnesses.MovingCabIsClosed`). The agreement
  of a cab is broken exactly from such a selection until the cab is next asked for a speed, sent one,
  stopped or reported (`Agreement.SelectBreaksAgreementExactly` for one step, `Paces.SettledExactly`
  for runs). `FocusCab` never breaks it.
* The documentation of `Close` says that queued operating commands are never replayed. The check for
  the close and the action are two steps, so an action that has passed the check is applied after
  `Close` has returned (`Shutdown.CloseOvertakesAnAction`). It is the only one
  (`Shutdown.OnlyTheOneInFlight`).
* A press in toggle mode whose release comes after a change to momentary mode sends one extra off
  command (`Pairing.TogglePair`, and a run in `Witnesses.ModeChangeSendsExtraOff`).
* A speed set while disconnected is never queued, but reversing the cab after attaching sends it
  (`Movement.DirectionSendsOfflineSpeed`). Ticks send only requests made over the connection and
  stops only 0 (`Paces.EveryThrottleCommand`); a reversal sends a speed that is neither
  queued nor last exchanged exactly when nothing is queued and nothing has been exchanged about the
  cab since attaching, or a selection has broken its agreement (`Paces.ReversalSendsCurrentSpeed`).
* A send may return an error although its whole line was written, because the write failed after its
  last byte, because its time was up, or because the client was closed meanwhile
  (`Writes.FailedSendsMayBeWhole`). The station then sees the command exactly if the connection took
  its whole text (`Writes.FailedSendReachesStationExactly`).
* Attempt tokens of the discovery repeat after 2^64 attempts (`Discoveries.TokensIncrease`).

## Model

| member | source | states |
|---|---|---|
| `Framing.Framer.Feed` | dccex/protocol/frame.go:15-43 | Feeding a chunk appends to the output exactly what the whole byte stream so far yields beyond what it had yielded, so the cuts between chunks never matter; the buffer never exceeds 4096 bytes |
| `Framing.Framer.Pending` | dccex/protocol/frame.go:44 | Pending is the unfinished frame at the end of the stream |
| `Framing.Framer.End` | dccex/protocol/frame.go:46-52 | End reports a truncated frame exactly when one is open, and empties the buffer |
| `Framing.FramesAreSlices` | dccex/protocol/frame.go:9-43 | For every byte stream the frames output are exactly, in order, the slices that start with an opening bracket, end with a closing one, hold no bracket in between and are at most 4096 bytes long |
| `Framing.UnfinishedIsOpenTail` | dccex/protocol/frame.go:17-44 | The buffer is the tail of the stream from the one opening bracket that has neither been closed nor outgrown the bound, and is empty exactly when there is none |
| `Framing.OpeningsAreAccountedFor` | dccex/protocol/frame.go:17-43 | The number of opening brackets equals frames + malformed errors + too-large errors + one if a frame is pending |
| `Framing.EachByteYields` | dccex/protocol/frame.go:17-43 | What each byte yields, told by the bytes before it: a malformed error when it opens a frame inside another, a too-large error when it is the 4097th of a frame, the frame when it closes one in time, and otherwise nothing |
| `Framing.ItemsAreKnown` | dccex/protocol/frame.go:17-43 | Every item is a complete frame within the bound or one of the two framing errors |
| `Decimal.ParseWordIsExact` | dccex/protocol/validations.go:14-32 | Unsigned 64-bit parsing with wrap-around gives the exact value of the digits, or an error exactly when the value does not fit |
| `Decimal.NumberIsExact` | dccex/protocol/validations.go:14-32 | number accepts a text with value n if and only if the text is a decimal numeral denoting n and n is within the bounds; overflow never turns a rejection into an acceptance |
| `Decimal.NumberReadsRender` | dccex/protocol/validations.go:14-32 | number reads back what the encoders print, up to the bounds |
| `Words.FieldsOfJoin` | dccex/protocol/message.go:103-107 | Splitting at white space undoes joining plain words with spaces |
| `Unicode.FieldsExactly` | dccex/protocol/message.go:103-107 | However words are spread over a line with any of the white space of Unicode, splitting its UTF-8 bytes gives exactly the words |
| `Unicode.EveryTextIsALine` | dccex/protocol/message.go:103-107 | Every text is such a line of words and gaps |
| `Unicode.ValidExactly` | dccex/protocol/message.go:94-97 | A byte string passes the UTF-8 check if and only if it is the encoding of some sequence of Unicode scalar values |
| `Commands.DecodeEncode` | dccex/protocol/command.go:5-95 | Each encoder succeeds exactly on its documented range, and splitting its output and reading the numbers gives back the opcode and the arguments |
| `Commands.EncodersAccept` | dccex/protocol/command.go:32-95 | Each encoder accepts exactly its range of addresses, speeds, directions, functions, variables and values |
| `Commands.PowerTrackDecodes` | dccex/protocol/command.go:19-31 | Each of the three tracks is encoded so that it can be read back |
| `Commands.OtherTracksAreRefused` | dccex/protocol/command.go:19-31 | The power encoder refuses a track as out of range if and only if it is not one of ALL, MAIN and PROG |
| `Commands.EncodersAreInjective` | dccex/protocol/command.go:5-95 | No two different commands, from whichever encoders, have the same text |
| `Commands.PlainTexts` | dccex/protocol/command.go:5-31 | The texts of the commands without numbers, letter by letter |
| `Commands.NumberedTexts` | dccex/protocol/command.go:32-62 | The texts of some locomotive, throttle and function commands, letter by letter |
| `Commands.EncodedIsFrame` | dccex/protocol/command.go:5-95 | Every encoder output is one well-formed ASCII frame of at most 30 bytes |
| `Commands.LinesComeBack` | dccex/protocol/frame.go:15-43 | Any batch of frames, each followed by a newline, comes back from the framer unchanged and leaves nothing pending |
| `Messages.ParsedIsReport` | dccex/protocol/message.go:88-228 | A parsed reply keeps its frame verbatim and carries only values in their documented ranges |
| `Messages.FramedIsNotObjectionable` | dccex/protocol/message.go:88-103 | A frame from the framer is never refused for its size or inner brackets, only for an empty or blank body, invalid UTF-8 or a control character |
| `Messages.ParseSay` | dccex/protocol/message.go:107-228 | Parsing the canonical text of any report gives exactly that report |
| `Replies.ObjectsExactly` | dccex/protocol/message.go:88-106 | A text gets as far as its words if and only if it is 3 to 4096 bytes of valid UTF-8 in brackets, without brackets or control characters inside, with at least one word; only size makes it too large |
| `Replies.ParsesExactly` | dccex/protocol/message.go:88-228 | A frame that is not refused as such parses to a report if and only if its words state that report in one of the listed forms: every reply with every number of words it may have, each word with its meaning and bounds, and a power reply without a track means ALL |
| `Messages.Decoder.Feed` | dccex/protocol/api.go:16-27 | The decoder outputs one outcome for each item of the stream, in order, whatever the chunking |
| `Writes.InvKept` | dccex/client/client.go:143-204 | Every step of every sender, writer and closer keeps the invariant of the write protocol |
| `Writes.WireIntegrity` | dccex/client/client.go:54-67 | Over every interleaving of senders, closers, timeouts and short writes, the bytes the connection has taken are the lines of the sends that returned nil, in lock order, followed by at most a prefix of one further line, whose send and all later ones did not return nil |
| `Writes.OnlyWholeLinesWhileOpen` | dccex/client/client.go:158-204 | While the client is open and nobody holds the lock, the connection has taken whole lines only |
| `Writes.NothingBegunOnceClosed` | dccex/client/client.go:158-165 | Once the client is closed it stays closed and no writer for another line is started |
| `Writes.StationSeesWholeCommands` | dccex/client/client.go:166-204 | When frames are sent, the receiving framer yields exactly the delivered commands and at most the one cut short after its closing bracket: no failure makes the station see a command nobody sent |
| `Writes.FailedSendReachesStationExactly` | dccex/client/client.go:166-204 | The station sees a command whose send did not return nil if and only if the connection took at least its whole text, and then after all delivered ones |
| `Writes.FailedSendsMayBeWhole` | dccex/client/client.go:178-203 | Three concrete runs in which a send returns an error although its whole line was written: a write that fails at its end, a timeout, and a close meanwhile |
| `Sends.FatesExactly` | dccex/client/client.go:150-204 | Read off the steps alone: a send returns nil if and only if its own caller received a report made after the connection had taken the whole line without a failing write, and an error if and only if its caller found the client closed or closed it |
| `Sends.ClosedExactly` | dccex/client/client.go:158-204 | The client is closed exactly by a close or by the close of a failing send, never without a close, a timeout or a failed write that a caller heard of, and a failed send leaves it closed |
| `Sends.SendsDeliver` | dccex/client/client.go:166-195 | A concrete run in which a line taken in two pieces is delivered, with the client still open and the lock free |
| `Delivery.ConnectionLogIsClean` | throttle/controller.go:148-184 | In every reachable state what was handed over since the last close is commands within their encoders' ranges, all sent successfully |
| `Delivery.StationReadsDelivered` | dccex/client/client.go:166-204 | What a station reads from the bytes is the commands whose sends returned nil, in order, and at most the one written although its send did not |
| `Delivery.StationReadsTheLog` | throttle/controller.go:148-177 | From any reachable controller to the station: what is read over the current connection is the controller's log since the connection was made, and at most the command being sent |
| `Reading.Read` | dccex/client/client.go:76-137 | For every sequence of reads the loop passes on one outcome for each item of the concatenated bytes, then a truncated frame if one is open, then the read error, or a first part of that if the client is closed meanwhile; the sizes of the reads do not matter |
| `Reading.StoryEnds` | dccex/client/client.go:105-137 | The read error is passed on last and only when a read failed, and a truncated frame just before it exactly if the bytes end inside a frame |
| `Reading.Deliver` | dccex/client/client.go:84-104 | The outcomes of one read are passed on in order, all of them unless the client is closed |
| `Reading.SaidGrows` | dccex/client/client.go:81-104 | What the first reads say is a first part of what all of them say |
| `Power.CountGroup` | throttle/power.go:47-78 | The counting loop gives a role overload if a mapped output is overloaded, else unknown if one is unreported, else on, off or mixed by agreement, else the fallback |
| `Power.PowerIsHistory` | throttle/power.go:28-83 | After any sequence of replies each role shows what the history of replies implies: per-output reports where outputs are mapped, otherwise the last summary since the last track-mode reply |
| `Power.SummaryHidesNoFault` | throttle/power.go:44-47 | No later summary reply hides, for MAIN or for PROG, an overload that an output mapped to it last reported |
| `Indicators.IndicatorsAreReplies` | throttle/power.go:28-83 | In every reachable state of a whole run the indicators are those implied by the replies since the connection was last made |
| `Indicators.ToggleFollowsReplies` | throttle/power.go:11-26 | Toggling a track sends nothing while its power is unknown, sends ON exactly when the replies say OFF, and sends OFF in every other case |
| `Settings.Validate` | config/throttles.go:34-60 | Validation accepts exactly the layouts of version 1 with at least one tab, valid names and labels, distinct addresses of 1..10293 and a selected tab among them |
| `Settings.ValidateDisplayName` | config/display_name.go:11-21 | A name is accepted exactly when it is valid text of at most 80 characters without control or separator characters |
| `Settings.TrimKeepsNames` | throttle/preferences.go:45-59 | A valid name stays valid after trimming |
| `Settings.TrimCutsSpace` | throttle/preferences.go:45-59 | Trimming cuts off exactly the white space at both ends |
| `Structure.StructureKept` | throttle/cabs.go:74-155 | Every operation, whatever the transport answers, keeps the tab order duplicate-free and non-empty, listing exactly the open cabs with the focus among them, with addresses of 1..10293 and valid names and labels |
| `Structure.ApplySameTabs` | throttle/cabs.go:157-164 | Commands, ticks, replies, attaching and detaching change no tab, order, focus, name, label, mode or visibility |
| `Structure.RemovedStructured` | throttle/cabs.go:100-123 | Closing a tab keeps the structure; a closed focus moves to the first remaining tab |
| `Structure.ReplacedStructured` | throttle/cabs.go:125-155 | Reassigning a tab keeps its position and the structure, also for the only tab |
| `Layouts.StructuredIsLayout` | throttle/preferences.go:35-42 | The stored form of every structured panel passes validation |
| `Layouts.RestoreReproduces` | throttle/preferences.go:17-42 | Restoring what a panel stores gives the same tabs in the same order and focus with the same names, labels, modes and visibility, at zero speed, forward, with no function on, and storing that again gives the same settings |
| `Layouts.RestoringShows` | throttle/preferences.go:17-33 | Restoring any valid layout shows its tabs in order and focus with their names, labels and visibility, with their modes or the default ones where the file has none, every cab at rest, and touches nothing but the tabs |
| `Layouts.DefaultRestoresFresh` | config/throttles.go:30-32 | The default layout is valid, and restoring it gives the panel of a fresh launch |
| `Runs.LaunchesAreLaunched` | throttle/preferences.go:17-33 | Both a fresh launch and one from a valid stored layout start structured, disconnected and at rest |
| `Runs.ReachableLayout` | throttle/preferences.go:35-42 | In every reachable state the stored form of the tabs is a valid layout |
| `Controllers.Controller.StoreCab` | throttle/cabs.go:31-39 | Storing the registers back makes the map equal to the map of all cabs it stands for |
| `Controllers.Controller.LoadCab` | throttle/cabs.go:40-46 | Loading a cab of the map makes it the focus without changing the map of all cabs |
| `Controllers.Controller.WithCab` | throttle/cabs.go:59-72 | Commanding another cab by swapping the registers has the effect of commanding it in the plain map, restores the focus in every case, and also when a failed send detaches in the middle |
| `Controllers.Controller.WithCabAll` | throttle/cabs.go:59-72 | Any sequence of commands inside one swap, up to the first that fails, has the effect it has on the plain map and restores the focus |
| `Controllers.Controller.Detach` | throttle/controller.go:114-141 | Detaching quiets every cab, in the registers and in the map, and blanks the power indicators |
| `Controllers.Controller.Send` | throttle/controller.go:148-177 | A command reaches the log with its outcome; a failed one detaches |
| `Controllers.Controller.Attach` | throttle/controller.go:92-113 | Attaching detaches first, then queries tracks, status and every tab in order, up to the first failure |
| `Controllers.Controller.MoveSpeed` | throttle/controller.go:212-230 | A speed of 0..126 is shown, and queued only while connected |
| `Controllers.Controller.Transmit` | throttle/controller.go:231-244 | The last sent values and time are recorded only for a command that was sent |
| `Controllers.Controller.TickCurrent` | throttle/controller.go:245-262 | The queued speed is dropped when it is already in effect, kept within 80 ms of the last transmission, and else sent |
| `Controllers.Controller.SetDirection` | throttle/controller.go:263-283 | The direction shown changes only after the station has taken the command |
| `Controllers.Controller.Stop` | throttle/controller.go:284-293 | A stop cancels the queued speed even when it cannot be sent |
| `Controllers.Controller.Emergency` | throttle/controller.go:294-318 | An emergency stop cancels every queued speed even when it cannot be sent, and zeroes every cab once it is |
| `Controllers.Controller.Press` | throttle/controller.go:341-371 | Pressing and releasing a function button act by its mode, and a release that matches a momentary press is never swallowed |
| `Controllers.Controller.AllFunctionsOff` | throttle/controller.go:372-384 | The functions that are on are turned off in ascending order, up to the first failure |
| `Controllers.Controller.SelectCab` | throttle/controller.go:189-211 | Selecting a cab opens it if needed, moves the focus, and cancels the queued speed of the cab left unless it is to be preserved |
| `Controllers.Controller.AddCab` | throttle/cabs.go:74-86 | Adding opens a tab at the end and focuses it |
| `Controllers.Controller.FocusCab` | throttle/cabs.go:88-98 | Focusing moves between open tabs and keeps what is queued |
| `Controllers.Controller.RemoveCab` | throttle/cabs.go:100-123 | Only a cab that is not the last, is shown at speed 0 and has nothing queued is closed |
| `Controllers.Controller.ReplaceCab` | throttle/cabs.go:125-155 | Reassigning keeps the position, name, labels, modes and visibility of the tab and nothing else |
| `Controllers.Controller.Tick` | throttle/cabs.go:157-164 | A tick serves every tab in order, up to the first failure |
| `Controllers.Controller.Receive` | throttle/controller.go:440-475 | A report of an open cab goes to that cab, focused or not, and power reports go to the board |
| `Controllers.Controller.RestoreTabs` | throttle/preferences.go:17-33 | Stored tabs replace the tabs exactly when they validate |
| `Controllers.Controller.StoredTabs` | throttle/preferences.go:35-42 | The stored form is built from the map, and from the registers for the focused cab |
| `Controllers.Controller.RenameCab` | throttle/preferences.go:45-59 | A rename edits only the name of its tab |
| `Controllers.Controller.SetFunctionLabel` | throttle/preferences.go:61-77 | A label edit changes only one label of its tab |
| `Controllers.Controller.SetFunctionHidden` | throttle/preferences.go:104-121 | A function is not hidden while its button is held |
| `Controllers.Controller.TogglePower` | throttle/power.go:11-26 | The decision is taken from the reported state |
| `Controllers.Controller.Do` | throttle/cabs.go:31-175 | Every operation on the register file has the same effect and error, and puts the same commands on the wire, as on a plain map of cabs without registers, for all transport answers |
| `Controllers.Controller.Execute` | throttle/session.go:191-236 | Any sequence of operations takes the registers through the states of the run of the plain map, so every whole-run theorem holds of the registers |
| `Focus.ThereAndBack` | throttle/cabs.go:61-72 | Focusing a cab, commanding it and focusing back is commanding it from afar |
| `Focus.ObeyIgnoresFocus` | throttle/cabs.go:59-72 | What a command does to a cab does not depend on the focus |
| `Focus.CommandsAreLocal` | throttle/cabs.go:59-72 | A command to one cab, other than the emergency stop, changes no other cab, no tab and no focus as long as the connection survives it |
| `Agreement.AgreementKept` | throttle/controller.go:212-318 | One step of any operation keeps the displayed/sent agreement of every cab |
| `Agreement.DisplayedAgreesWithSent` | throttle/cabs.go:100-175 | In every reachable state a queued speed implies a connection and is the shown one, and a known last direction is the shown one; in runs without SelectCab a cab with nothing queued shows its last known speed |
| `Agreement.OnlyStoppedCabsAreDropped` | throttle/cabs.go:109-140 | In such runs a tab is closed or reassigned only when its last exchanged speed, if known, is zero |
| `Agreement.SelectBreaksAgreementExactly` | throttle/controller.go:189-211 | SelectCab keeps the agreement if and only if it does not leave a cab with an unsent, different speed queued over a connection that survives |
| `Movement.TickSends` | throttle/cabs.go:157-164 | What a tick sends is determined by the panel before it: one command for each due tab in order, up to the first failure |
| `Movement.TickLogIsSound` | throttle/controller.go:245-262 | Every command of a tick is for a due cab and carries its queued speed and current direction, and no cab gets two |
| `Movement.TickFollowsTabOrder` | throttle/cabs.go:157-164 | A tick serves the cabs in the order of their tabs |
| `Movement.PendingHasOrigin` | throttle/controller.go:212-230 | Every queued speed comes from the last MoveSpeed on that cab: nothing has revoked it, no other speed was asked for and no tick has sent it since |
| `Movement.NoStaleMovement` | throttle/controller.go:245-318 | A throttle command sent by a tick carries the latest speed asked for: it comes from a MoveSpeed on that cab with no other one after it, made after its last stop attempt, any emergency attempt, any report of it, any selection away from it and any attaching or detaching, and not sent by a tick before |
| `Movement.ClockIsHistory` | throttle/controller.go:231-244 | The time kept for an open tab is that of its last successful transmission, across focus changes and detaching |
| `Movement.RateLimited` | throttle/controller.go:254-256 | A tick transmits to a cab at most once and at least 80 ms after the last transmission of any kind to it |
| `Movement.LateTickConverges` | throttle/controller.go:245-262 | A tick late enough for every queued cab, with no send failure, leaves nothing queued |
| `Movement.DirectionSendsOfflineSpeed` | throttle/controller.go:269-283 | Reversing a cab after attaching sends a speed that was chosen without a connection |
| `Speeds.PaceStep` | throttle/controller.go:212-318 | What every operation does to the speed of every cab, shown, queued and last exchanged: a new tab is unmoved, and the rest follows from the operation and from what went over the connection |
| `Speeds.ThrottleStep` | throttle/controller.go:231-293 | Every command of every operation is within range, and every throttle command is a due cab's queued speed, a stop's 0 or a reversal's shown speed |
| `Speeds.FailureStep` | throttle/controller.go:148-171 | After every failed command of every operation the connection is closed at once |
| `Paces.PaceIsHistory` | throttle/controller.go:212-318 | In every reachable state the shown, queued and last exchanged speed of an open cab are those of the history of operations and of the connection since its tab was opened |
| `Paces.EveryThrottleCommand` | throttle/controller.go:231-293 | Every throttle command of a run comes from a tick and carries the latest request, or from a stop and carries 0, or from a reversal and carries the shown speed of the history; nothing else sends one |
| `Paces.ReversalIsCurrent` | throttle/controller.go:269-283 | In one step: the speed a reversal would send is queued or last exchanged if and only if something is queued or the last exchange is known |
| `Paces.ReversalSendsCurrentSpeed` | throttle/controller.go:269-283 | Over whole runs: the speed that a reversal sends is queued or last exchanged over this connection if and only if one is queued or something was exchanged about the cab since attaching, while its agreement stands, and in general if and only if one is queued or the exchanged one is on show |
| `Paces.SettledExactly` | throttle/controller.go:189-211 | In every reachable state a cab with nothing queued shows its last exchanged speed if and only if no SelectCab has left it with another speed queued since it was last asked for, sent, stopped or reported |
| `Paces.DroppedCabsAreStoppedExactly` | throttle/cabs.go:109-140 | A tab that is closed or reassigned shows 0 with nothing queued, and its last exchanged speed is 0 or unknown if and only if no such selection stands |
| `Witnesses.MovingCabIsClosed` | throttle/cabs.go:109-123 | A concrete run in which a tab that shows 0 is closed while the last speed exchanged about its cab is 50 |
| `Witnesses.ModeChangeSendsExtraOff` | throttle/controller.go:347-366 | A concrete run in which a press in toggle mode and its release in momentary mode send two commands |
| `Effects.ClosingCutsOneTabOut` | throttle/cabs.go:100-123 | Closing is refused exactly for a tab that is not open, the only one, or a cab not at rest; otherwise it removes that one tab, moves the focus only if it was there, and changes and sends nothing else |
| `Effects.ReassigningKeepsThePlace` | throttle/cabs.go:125-155 | Reassigning keeps the place and presentation of the tab, starts the new cab at rest and leaves the other tabs alone, even when the request fails |
| `Effects.AllFunctionsGoOff` | throttle/controller.go:372-384 | Switching all functions off sends exactly one off command for each function that was on, in ascending order, and leaves none on |
| `Effects.EmergencyHaltsAll` | throttle/controller.go:294-318 | An emergency stop leaves nothing queued for any cab even when it fails; once sent every cab shows speed 0 and keeps the rest of its state |
| `Effects.ConnectionEndsExactly` | throttle/controller.go:148-177 | A connection ends by a detach or by a failed send and by nothing else, and an attach leaves one exactly when it reports no error |
| `Transcripts.SendsExactly` | throttle/controller.go:92-184 | Every operation sends exactly the commands it wants, in order, up to the first that fails and the close that follows it, after the close of the old connection if it ends that, and the connection stands afterwards exactly if none failed; an attach wants the track query, the status request and one question per tab in order |
| `Transcripts.EveryCommandHasReason` | throttle/controller.go:92-424 | In every run each command has its reason: an emergency stop only an emergency, a power command only a request or the toggle of a known track, a question about a cab only an attach or a new focus, track query and status only an attach, and so on for every command |
| `Refusals.FailsExactly` | throttle/controller.go:148-384 | What every operation reports: its refusal, which changes nothing at all, or a missing connection when it has something to send, or a failed send if and only if one of its commands fails |
| `Refusals.EveryFailureIsExplained` | throttle/cabs.go:61-164 | So it is at every step of every run |
| `Tabs.TabsStep` | throttle/cabs.go:74-155 | The tabs after every operation: an opened one comes last with a fresh cab in the default modes, a reassigned one keeps its place, a closed one is cut out, and the focus goes only where it is asked or to the first tab |
| `Tabs.PresentationStep` | throttle/preferences.go:45-121 | The name, labels, modes and visibility of an open cab after every operation: as asked for and trimmed if the operation edits them, else as before |
| `Tabs.TabsAreAsAsked` | throttle/cabs.go:74-155 | So it is at every step of every run |
| `Looks.ReportShows` | throttle/cabs.go:166-175 | A report of an open cab shows exactly the functions whose weights 2^n add up to its mask modulo 2^29, and its direction and speed, and changes nothing else about that cab or any other |
| `Looks.LookStep` | throttle/controller.go:341-384 | The functions and the direction on show after every operation: as reported, as sent by a toggle press, by switching all off or by a throttle command that succeeded, else as before |
| `Looks.LooksAreHistory` | throttle/cabs.go:166-175 | In every reachable state the functions and the direction on show are those of the history of reports and successful commands |
| `Pairing.PressStep` | throttle/controller.go:341-371 | What one press or release sends and remembers, by mode |
| `Pairing.HeldExactlyBetween` | throttle/controller.go:347-366 | A function is held if and only if a momentary press reached the station and since then nothing touched its button, closed or reassigned its tab, or broke the connection |
| `Pairing.MomentaryPair` | ui/fyne/function.go:66-84 | A momentary press sends exactly one on and its release exactly one off, also when the mode changes while it is held, and the function is held exactly in between |
| `Pairing.TurnsArePairs` | ui/fyne/function.go:66-84 | In a connected run in which presses and releases of an open tab's button take turns, a press and the next touch come to one on and one off, or in toggle mode to one command |
| `Buttons.PressThenRelease` | ui/fyne/function.go:66-84 | In the calls of a button every press is followed by its release, and nothing is released that was not pressed just before |
| `Buttons.FunctionButton.Tapped` | ui/fyne/function.go:99-107 | A tap after a counted press adds nothing, and any other is a press with its release |
| `Buttons.FunctionButton.TypedKey` | ui/fyne/function.go:113-118 | An activating key is a press with its release |
| `Buttons.FunctionButton.Down` | ui/fyne/function.go:66-75 | Calls stay in alternation when the button goes down |
| `Buttons.FunctionButton.Up` | ui/fyne/function.go:76-84 | Calls stay in alternation when the button goes up |
| `Pairing.TogglePair` | throttle/controller.go:347-371 | A toggle press sends exactly one command; its release sends nothing, except one extra off when the mode has become momentary meanwhile |
| `Saving.Session.constructor` | throttle/session.go:59-77 | The stored tabs are restored if they validate, and the session saves exactly if they do and a way to save was given |
| `Saving.Session.ApplyAction` | throttle/session.go:238-271 | An action saves the layout exactly when it changed it, whatever error it reports, and reports its own failure or that of the save; while closing, preferences act on a detached panel and anything else is refused |
| `Saving.Session.Loop` | throttle/session.go:203-226 | Ticks, polls, replies and the loss of the connection save nothing |
| `Saving.Session.FlushPreferences` | throttle/session.go:273-285 | Shutdown detaches first and then handles the queue in order |
| `Saving.DrainAppliesPreferences` | throttle/session.go:247-259 | Draining applies the queued preferences in order and nothing else |
| `Saving.DrainSendsNothing` | throttle/session.go:273-285 | Draining sends no command to the station, whatever was queued |
| `Saving.LoopKeepsLayout` | throttle/session.go:203-226 | Ticks, polls, replies and the loss of the connection never change the stored form of the tabs |
| `Saving.InStepStep` | throttle/session.go:261-270 | A successful save puts the cell in step with the tabs, a failed one takes it out of step, and nothing else changes either |
| `Saving.StoredSinceLaunch` | throttle/session.go:66-72 | From the launch until the first layout change whose save fails, relaunching from the cell reproduces the tabs |
| `Saving.StoredSinceSave` | throttle/session.go:259-270 | From each successful save until the next layout change whose save fails, relaunching from the cell reproduces the tabs, whatever modes are the default then |
| `Saving.UnreadableIsKept` | throttle/session.go:66-72 | Without a way to save, and when the layout did not validate at launch, storage is never written |
| `Saving.LaunchShowsStored` | throttle/session.go:59-75 | A launch shows the stored layout if there is one that validates, whether or not the session can save, and the default one otherwise |
| `Shutdown.InvKept` | throttle/session.go:97-120 | Every step of callers, closers and the session goroutine keeps the invariant of the queue |
| `Shutdown.QueueIsFifo` | throttle/session.go:97-120 | Over every interleaving accepted actions leave the queue once each in the order of acceptance, and at most 128 wait |
| `Shutdown.NothingAcceptedOnceClosed` | throttle/session.go:83-87 | Accepting is atomic with closing: nothing is accepted after the close |
| `Admissions.OfferedExactly` | throttle/session.go:111-119 | In every execution an offered action is accepted, behind all accepted before, if and only if fewer than 128 accepted actions have not been taken yet |
| `Admissions.CheckedExactly` | throttle/session.go:97-105 | At its check a caller is turned away if and only if somebody has closed the session by then |
| `Admissions.ClosedExactly` | throttle/session.go:83-87 | The session is closed exactly from the first Close on |
| `Admissions.OneTooMany` | throttle/session.go:111-119 | A concrete execution with 128 actions waiting and the next one refused |
| `Admissions.DroppedOnlyOnceClosed` | throttle/session.go:248-254 | Until somebody closes the session everything taken is applied, and a dropped action is always an operating one |
| `Admissions.NoTickOnceClosed` | throttle/session.go:198-204 | No tick begins once the session is closed |
| `Shutdown.PreferencesAppliedWhenDone` | throttle/session.go:81-84 | When the session is done, every accepted preference has been applied exactly once, in order, and the queue is empty |
| `Shutdown.ClosedRunsDown` | throttle/session.go:273-285 | Once closed, each step of the goroutine lowers its rank and no other thread raises it |
| `Shutdown.ShutdownEnds` | throttle/session.go:273-285 | From any moment at which the session is closed the goroutine finishes within a bounded number of its own steps |
| `Shutdown.NeverStuck` | throttle/session.go:172-236 | The goroutine can always go on, unless it has finished or waits for the lock, and then the holder can go on |
| `Shutdown.OnlyTheOneInFlight` | throttle/session.go:238-258 | After the close no operating action is applied except, exactly, the one whose check had passed when the session was closed |
| `Shutdown.CloseOvertakesAnAction` | throttle/session.go:247-260 | A concrete run in which Close returns and the checked operating action is applied afterwards |
| `Sessions.DoneMeansKept` | throttle/session.go:81-84 | When the session is done, every accepted preference has been applied to the tabs exactly once and in order, and if it saves and no save has failed, launching again from storage gives the tabs it ended with |
| `Sessions.DoneMeansOffline` | throttle/session.go:273-285 | A session that is done has left the connection, whatever was still queued at the close |
| `Mailbox.NothingIsDropped` | throttle/session.go:158-171 | With one publisher the last branch of publish, which would lose the snapshot, is never taken |
| `Mailbox.ReceivedInOrder` | throttle/session.go:158-171 | A view receives snapshots in the order of publication and none twice |
| `Mailbox.NewestIsAvailable` | throttle/session.go:227-234 | Between publications the newest snapshot is in the slot or was received last |
| `Mailbox.PublishNeverWaits` | throttle/session.go:158-171 | Publishing ends after at most three selects, whatever the view does |
| `Catalogs.Validate` | dccex/capabilities/catalog.go:27-49 | Validation accepts exactly the catalogs with a positive schema and distinct trimmed names, each with distinct positive versions |
| `Catalogs.Supports` | dccex/capabilities/catalog.go:53-63 | Support means an exact match of schema, name and version |
| `Catalogs.SupportIsListed` | dccex/capabilities/catalog.go:51-63 | In a valid catalog what is supported is listed under exactly one feature |
| `Catalogs.Clone` | dccex/capabilities/catalog.go:66-83 | A clone shares no object with its original and says the same, nil for nil and empty for empty |
| `Discoveries.Discovery.Snapshot` | dccex/capabilities/discovery.go:38-42 | A snapshot says what the state says and shares nothing with it |
| `Discoveries.Discovery.Begin` | dccex/capabilities/discovery.go:46-57 | An attempt starts only with a positive timeout and none pending, and gets the next token |
| `Discoveries.Discovery.Accept` | dccex/capabilities/discovery.go:59-69 | A catalog is kept, as a copy, only in time for the pending attempt and only if it validates |
| `Discoveries.Discovery.Reject` | dccex/capabilities/discovery.go:73-79 | A rejection counts only in time for the pending attempt |
| `Discoveries.Discovery.Expire` | dccex/capabilities/discovery.go:81-87 | A pending attempt ends at its deadline |
| `Discoveries.Discovery.Reset` | dccex/capabilities/discovery.go:91-94 | A reset forgets everything but the attempt number |
| `Discoveries.Discovery.SnapshotsAreIsolated` | dccex/capabilities/discovery.go:38-69 | No change to a catalog that was passed in or handed out changes what the state says or supports |
| `Discoveries.SnapshotSupports` | dccex/capabilities/discovery.go:24-26 | A snapshot supports a feature exactly when it is available and its catalog lists it |
| `Discoveries.TokensIncrease` | dccex/capabilities/discovery.go:44-57 | Tokens strictly increase, across resets too, if and only if fewer than 2^64 attempts were started |
| `Discoveries.TokensAreConsumedOnce` | dccex/capabilities/discovery.go:59-79 | Until the counter wraps each token is consumed at most once, in order |
| `Discoveries.AvailableExactlyWhenGranted` | dccex/capabilities/discovery.go:59-101 | A catalog is available if and only if it validates and was accepted strictly before the deadline with the token of the last attempt, with no reset since |
| `Attempts.OutcomesExactly` | dccex/capabilities/discovery.go:46-101 | After any calls the status, the listing, the attempt number and the deadline are those told by the calls alone: an attempt starts exactly when one is asked for with time to wait and none is waiting, and its verdict is that of the first response with its number, unless its time is up before |
| `Discoveries.OtherwiseNothingIsSupported` | dccex/capabilities/discovery.go:24-26 | In every other status the catalog is empty and supports nothing |

## Left out

- Telemetry, contexts and spans (`telemetry/`, `throttle/telemetry.go`): they observe and decide nothing.
- Sockets, serial ports, timers and tickers: reads and writes are arbitrary results, times are parameters.
- A connection is assumed to report the bytes it took when a write succeeds; on an error or a short count any number may have been taken.
- JSON, bbolt and the file code in `config/` and `stations/`: storage is one cell whose save may fail; no claim is made that decoding undoes encoding.
- The Fyne interface, startup flags, packaging and emulator fixtures, except for the button of `ui/fyne/function.go`.
- Pairing.TurnsArePairs: that presses and releases still take turns when they are handled is a condition on the run, because the queue may refuse one of them when it is full or closed.
- Messages.ParsedIsReport: the text of a version reply is not modelled, only its frame.
- Messages.ParseSay: version and unknown replies are covered for one canonical text each, because any text may stand for them.
- Log entries, status texts, current readings, limits, programming results, CV names and CV29: they are shown and decide nothing.
- Controllers.Controller.WithCab: one command at a time; `Controllers.Controller.WithCabAll` covers sequences of commands, and closures that do anything else are not modelled.
- Controllers.Controller.Receive: replies without an effect on cabs or power change nothing in the model, because what they set is not modelled.
- Raw console commands: they bypass the bookkeeping of speeds, so runs do not contain them.
- Opening a connection: an attach is an operation of its own, and the wait for the opener is not modelled.
- The reset of the discovery on detach: the discovery is modelled on its own.
- Shutdown.OnlyTheOneInFlight: ticks and polls in flight at the close are steps of the goroutine that carry no action, so the lemma counts queued actions only.
- Reading.Read: the reads are a finite sequence; a loop still waiting for its next read is its end.
- Parse and its helpers are modelled as functions although the original fills arrays in loops.
- A function queued with Post is the operation that its number stands for.
- Nothing was executed.
