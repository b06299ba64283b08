# boba: runtime, example form and cancelable input readers, in Dafny

This project models parts of Bubble Tea, a Go framework for terminal user
interfaces built on the Elm architecture: a program is an `init` that yields
a model and a command, an `update` that maps a message and the model to a
new model and a command, and a `view` that renders the model as text. The
runtime and the example form come from an early version of the framework,
then called boba (package `boba`). The two cancelable input readers come
from a later version (package `tea`, selected by `//go:build` constraints
per operating system); the modelled runtime does not use them, since its
`Start` reads keys with `ReadKey(os.Stdin)` (boba.go:103). The model covers
four pieces:

- `boba.go` (module `Boba`, file `boba.dfy`): `Batch`; `render`, which turns
  every `\n` into `\r\n`, clears the previously painted lines and returns the
  new line count; the dispatch loop of `Start` as a pure transition `Step`
  over (model, command queue, lines rendered, paints) with `Run` over a
  sequence of events, and the imperative `Start` proved equal to `Run`; the
  command processor's skipping of nil commands; and the clock-aligned delay
  of `Every`, with time as integer nanoseconds.
- `examples/textinputs/main.go` (module `TextInputs`): the three-input form
  with a submit button. Focus cycles with tab, shift+tab, up, down and enter,
  and enter on the button or ctrl+c quits. The text-input widget is a record
  of the fields the form sets, and its `Update`, `View` and `Blink` are
  parameters. `update` and `view` are methods with the source's loops, and
  `updateInputs` a method of three successive updates; they are proved
  against the functions `FormUpdate`, `FormText` and `UpdateAll`.
- `inputreader_linux.go` (module `EpollReader`): the epoll reader as a class
  whose state is the cancel flag, the number of bytes waiting in the
  self-pipe and which of its descriptors are still open. The results of the
  system calls are parameters.
- `inputreader_select.go` (module `SelectReader`): the same for the `select`
  reader, with the descriptor set of `waitForRead` as a `bool` array of
  `FD_SETSIZE` (1024) entries.

The module `Errors` (`errors.dfy`) holds Go errors with `%w` wrapping and
`errors.Is`, and the aggregation of failed releases that both `Close`
methods perform. `Retry` (`retry.dfy`) gives the first wait outcome that is
not `EINTR`, where both readers' retry loops stop. `Strings` (`strings.dfy`)
is `strings.Join`, and `Wrappers` (`wrappers.dfy`) the optional value that
stands for a Go result that may be nil. The module `InputReader`
(`inputreader.dfy`) holds the reader's input source, the constructor's
choice of reader and the decoder's outcome.

Two places where the code does something other than one might expect; the
model follows the code:
- One might expect a nil command from `update` to be dropped before it is
  queued. The code queues it (boba.go:150) and the command processor drops
  it (boba.go:118). `Step` queues it, and `ProcessCommands` and `NonNil`
  drop it.
- `newSelectInputReader` checks only the input file's descriptor against
  `FD_SETSIZE` (inputreader_select.go:25). `waitForRead` also checks the
  pipe's descriptor (inputreader_select.go:113-121), so a reader can be built
  whose every wait fails (`SelectReader.PipeBeyondLimit`).

## Model

| member | source | states |
|---|---|---|
| Boba.Batch | boba.go:24-31 | no commands gives the nil command; otherwise a command whose message is a batch of exactly the given commands, in order |
| Boba.Normalize | boba.go:162 | the normalised view is one character longer for every newline of the view |
| Boba.NormalizeShape | boba.go:162-168 | normalising keeps the number of `\n`, every `\n` is preceded by `\r`, and the `\r\n` count equals the view's `\n` count |
| Boba.NormalizeRoundTrip | boba.go:162 | turning `\r\n` back into `\n` restores the view, so normalising loses nothing |
| Boba.Render | boba.go:157-169 | the returned count is the number of `\n` in the view; the text written is the view with carriage returns; the previous lines are cleared only when their count is positive, and then all of them |
| Boba.RepaintClearsPreviousLines | boba.go:164-168 | a first paint of three lines clears nothing; the next paint clears exactly those three |
| Boba.Boot | boba.go:90-98 | the loop starts with the initial model, the initial command queued unless nil, and one first paint that clears nothing |
| Boba.Step | boba.go:128-153 | one iteration ends the loop exactly on an input error or a quit message; otherwise it only appends to the command queue and to the paints |
| Boba.Run | boba.go:128-153 | the loop fed a sequence of events is still running exactly when none of them is an error or a quit |
| Boba.StepStops | boba.go:128-139 | an input error is returned, and a quit message returns success, without calling update |
| Boba.RunStopsAtFirstStop | boba.go:128-153 | the first error or quit decides what `Start` returns, and no event after it is looked at |
| Boba.StepBatch | boba.go:141-147 | a batch message queues its commands in order and leaves the model and the line count alone |
| Boba.StepUpdate | boba.go:149-151 | any other message replaces the model with update's result, queues the returned command even when nil, and repaints the new model |
| Boba.BootPainted | boba.go:97-98 | after start-up the only paint wrote the initial model's view, and the recorded line count is that view's |
| Boba.StepPainted | boba.go:149-151 | one step keeps every paint clearing exactly the lines of the paint before it, and the last paint the view of the current model |
| Boba.RunPainted | boba.go:128-153 | over any run, each repaint clears exactly the lines the previous paint drew, and the last paint wrote the current model's view |
| Boba.RunQueueGrows | boba.go:141-150 | the command queue only grows: commands already queued keep their place |
| Boba.Start | boba.go:128-153 | the imperative dispatch loop ends with exactly the status `Run` gives for the same events |
| Boba.NonNil | boba.go:117-122 | the commands the processor starts are the queued commands that are not nil, and no nil command is started |
| Boba.BatchStartsInOrder | boba.go:142-147 | after a batch message the processor starts the batch's non-nil commands after the earlier ones, in order |
| Boba.ProcessCommands | boba.go:112-125 | the processor loop starts exactly `NonNil` of its queue |
| Boba.EveryDelay | boba.go:195-196 | for a positive duration the delay is in (0, duration] and now plus the delay is the next multiple of the duration; otherwise the delay is the duration |
| Boba.EveryDelayUnique | boba.go:185-196 | any wait in (0, duration] that lands on a multiple of the duration is the delay `Every` computes |
| Boba.EveryExample | boba.go:189-192 | at 12:34:20 with a one-minute duration the delay is 40 seconds |
| TextInputs.NextIndex | examples/textinputs/main.go:104-115 | up and shift+tab move the index back, other navigation keys move it on, wrapping 3 to 0 and 0 to 3; the result is always in 0..3 |
| TextInputs.Navigate | examples/textinputs/main.go:104-141 | navigation yields a well-formed form at the next index: the input at the index alone focused with the focused prompt and colour, the others blurred and uncoloured, the button focused exactly at index 3; text and placeholders kept |
| TextInputs.OneFocused | examples/textinputs/main.go:117-139 | in a well-formed form exactly one of the three inputs and the button is focused |
| TextInputs.NavigateInverse | examples/textinputs/main.go:104-139 | moving on then back, or back then on, restores a well-formed form |
| TextInputs.UpdateAll | examples/textinputs/main.go:156-168 | the message goes to the name, nickname and email inputs in that order; index and button are unchanged; the command is never nil and batches the three input commands in order |
| TextInputs.FormUpdate | examples/textinputs/main.go:64-154 | ctrl+c, and enter on the button, quit with the model unchanged; other navigation keys navigate with a nil command; every other message goes to the inputs and returns a non-nil command |
| TextInputs.UpdateKeepsWellFormed | examples/textinputs/main.go:64-168 | update keeps the form well formed when the widget's own update leaves its style alone |
| TextInputs.ProgramKeepsWellFormed | examples/textinputs/main.go:64-154 | run by the dispatch loop over any events, the form stays well formed |
| TextInputs.Update | examples/textinputs/main.go:64-154 | the imperative update panics on a model that is not the form's and otherwise returns exactly `FormUpdate` |
| TextInputs.UpdateInputs | examples/textinputs/main.go:156-168 | the imperative update of the inputs returns exactly `UpdateAll` |
| TextInputs.View | examples/textinputs/main.go:170-194 | the view is a newline, the three input views on separate lines, a blank line, the button and a newline; a model that is not the form's gives the fixed error text |
| TextInputs.FormTextLines | examples/textinputs/main.go:176-193 | when no input view contains a newline, the runtime records six lines for the form |
| TextInputs.Initialize | examples/textinputs/main.go:40-61 | index 0, the name input focused with the focused prompt and colour, the other two with the plain prompt, placeholders Name, Nickname and Email, the button blurred, and a non-nil batch of the three blink commands |
| TextInputs.InitializeWellFormed | examples/textinputs/main.go:40-61 | the initial form is well formed with exactly one control focused, when a new widget starts blurred and uncoloured |
| InputReader.Delivered | inputreader_linux.go:90-95 | a readable stream gives exactly one parsed message and no error, or the parse error and no messages |
| Retry.FirstSettled | inputreader_linux.go:136-147 | the wait stops at the first outcome that is not `EINTR`, having retried every one before it |
| Errors.FailureMessages | inputreader_linux.go:107-124 | there are exactly as many failure messages as failed releases, each failed release's message is among them, and there are none exactly when every release succeeded |
| Errors.FailureMessagesAppend | inputreader_linux.go:109-124 | attempting one more release appends its failure message, if any, after the earlier ones |
| Errors.Aggregate | inputreader_linux.go:106-131 | `Close` returns nil exactly when every release succeeded |
| Errors.AggregateConcat | inputreader_linux.go:106-131 | the error of several releases joins the errors of consecutive groups of them with ", " |
| EpollReader.NewInputReader | inputreader_linux.go:23-27 | anything but a file gets the fallback reader; a file gets the epoll reader |
| EpollReader.Reader.constructor | inputreader_linux.go:29-60 | a new reader is not cancelled, its pipe is empty and its three descriptors are open |
| EpollReader.Reader.Classify | inputreader_linux.go:142-156 | an event on the file means readable, on the pipe cancelled, on anything else an unknown error; a wait failure is wrapped as "kevent" |
| EpollReader.Reader.Wait | inputreader_linux.go:133-157 | `EpollWait` is called until the first non-`EINTR` outcome, one call per outcome, and that outcome is classified |
| EpollReader.Reader.ReadInput | inputreader_linux.go:71-96 | a cancelled reader returns cancelled without waiting and leaves the pipe alone; a cancel wake-up drains one byte, or returns the wrapped drain error; other wait errors pass through; a readable file gives exactly one message or the parse error |
| EpollReader.Reader.Cancel | inputreader_linux.go:98-104 | the flag is always set; one byte goes into the pipe; the result is true exactly when the write succeeded |
| EpollReader.Reader.Close | inputreader_linux.go:106-131 | epoll, the pipe's writer and its reader are all released, in that order, whatever fails; the error lists the failures in that order joined by ", ", and is nil exactly when none failed |
| SelectReader.NewSelectInputReader | inputreader_select.go:23-27 | the fallback reader exactly for anything but a file and for a file whose descriptor is at least `FD_SETSIZE` |
| SelectReader.Readiness | inputreader_select.go:127-140 | a select failure is wrapped as "select"; a readable pipe means cancelled even when the file is also readable; the file alone means readable; neither is an error |
| SelectReader.WaitForRead | inputreader_select.go:109-141 | when the larger descriptor is at least `FD_SETSIZE`, an error without calling select; otherwise select is called with nfds one above the larger descriptor and its outcome read as `Readiness` says |
| SelectReader.Reader.constructor | inputreader_select.go:23-37 | a new reader is not cancelled, its pipe is empty and both pipe ends are open |
| SelectReader.Reader.Waited | inputreader_select.go:52-69 | an `EINTR` never reaches the caller; a descriptor too large for select fails before any outcome is looked at; otherwise the result is cancelled exactly when the first non-`EINTR` outcome has the pipe readable, and readable exactly when it has the file readable and not the pipe |
| SelectReader.Reader.ReadInput | inputreader_select.go:47-78 | a cancelled reader returns cancelled without waiting; `EINTR` restarts the wait; a cancel wake-up drains one byte, or returns the wrapped drain error; other errors pass through; a readable file gives exactly one message or the parse error |
| SelectReader.Reader.Cancel | inputreader_select.go:80-86 | the flag is always set; one byte goes into the pipe; the result is true exactly when the write succeeded |
| SelectReader.PipeBeyondLimit | inputreader_select.go:23-27 | with the file's descriptor below `FD_SETSIZE` and the pipe's at or above it, the select reader is chosen, and a read on it returns no message and the too-large-descriptor error for the pipe's descriptor |
| SelectReader.Reader.Close | inputreader_select.go:88-107 | the pipe's writer and reader are both released, in that order, whatever fails; the error lists the failures in that order joined by ", ", and is nil exactly when none failed |

## Left out

- The goroutines and channels of `Start` (boba.go:92-125): the input pump, the command processor and one goroutine per command run concurrently. The model takes the events that reach the loop as a sequence and the processor as a separate function over the queue.
- Boba.Boot: the initial command is sent from its own goroutine (boba.go:92-94) and may reach the queue after other commands; the model puts it first.
- The input pump's fall-through after an error (boba.go:104-107) is concurrent behaviour and is not modelled.
- `initTerminal`, `restoreTerminal`, `termenv.ClearLines`, the write to standard output, `AltScreen` and `ExitAltScreen` are terminal I/O. `Render` records what is cleared and written as a `Paint` value instead.
- `Tick` and the timers of `Every` only wait; only the delay arithmetic of `Every` is modelled.
- Boba.EveryDelay: time is unbounded integer nanoseconds from the zero time. Go's 64-bit `Duration` saturation and the monotonic clock reading are not modelled.
- The system calls (`EpollCreate1`, `EpollCtl`, `EpollWait`, `Select`, `os.Pipe`, `Read`, `Write`, `Close`) are replaced by their outcomes, passed in as parameters.
- The constructors' error paths (inputreader_linux.go:29-58, inputreader_select.go:32-35) and the descriptors they leak are OS resource handling. The constructors model a successful construction, and `NewInputReader` and `NewSelectInputReader` model only the choice of reader.
- `parseInputMsgFromReader`, `ReadKey`, `cancelMixin`, `errCanceled`, `newFallbackInputReader` and the `textinput` package are not part of this model. The parser is an outcome parameter, the cancel flag a field, the cancel error a constructor of `Errors.Error`, and the widget a record with its functions as parameters.
- The atomicity of the cancel flag and the timing of `Cancel` against a blocked wait cannot be stated in a sequential model.
- EpollReader.Reader.ReadInput: draining the pipe when the count of pending bytes is already zero leaves it at zero; the byte read then is one written by a `Cancel` on another goroutine.
- SelectReader.Reader.ReadInput: draining the pipe when the count of pending bytes is already zero leaves it at zero, as for the epoll reader.
- SelectReader.Reader.ReadInput: requires that some wait outcome is not `EINTR`, even when the descriptors are too large and no wait happens; the source retries for ever.
- EpollReader.Reader.Close: a close that fails is still counted as releasing its descriptor, as Linux `close` does.
- The exact ANSI sequences of the coloured prompt and buttons assume a 256-colour terminal; the colour profile is detected at run time in the source.
- Errors.Aggregate: both `Close` methods pass the joined text to `fmt.Errorf` as its format string (inputreader_linux.go:127, inputreader_select.go:103), so Go would expand a `%` inside a failure text; the model returns the plain joined text.
- The wording of error messages is kept only where it appears in the code; Go's formatting of an errno value is not modelled.
- TextInputs.Initialize: `Focus` and `Blur` of the widget only flip its focused flag; blinking cursor state is not modelled.
