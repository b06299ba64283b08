/** The deterministic core of the runtime: messages and commands, `Batch`,
    the renderer's line-ending normalisation and line count, the main
    dispatch loop of `Start` taken one event at a time, the command
    processor's nil filter, and the clock-aligned delay of `Every`. */
module Boba {

  import Wrappers

  /** A message. `QuitMsg` and `BatchMsg` are the runtime's own; `KeyMsg`
      carries a decoded key by its `String()` name; `AppMsg` stands for every
      other message an application or a command produces. */
  datatype Msg =
    | QuitMsg
    | BatchMsg(cmds: seq<Cmd>)
    | KeyMsg(key: string)
    | AppMsg(tag: nat)

  /** A command. `NoCmd` is Go's nil command, a no-op. `Yield(m)` is a
      command that does nothing but return `m` (`Quit`, and the closure
      `Batch` returns). `Effect(id)` is an application command whose
      side effect and resulting message lie outside the model. */
  datatype Cmd =
    | NoCmd
    | Yield(msg: Msg)
    | Effect(id: nat)

  /** The `Quit` command. */
  const Quit: Cmd := Yield(QuitMsg)

  /** The message a non-nil command returns when it runs; `effects` says
      what each opaque effect returns. */
  function RunCmd(c: Cmd, effects: nat -> Msg): Msg
    requires c != NoCmd
  {
    match c
    case Yield(m) => m
    case Effect(id) => effects(id)
  }

  /** `Batch(cmds...)`: nil for no commands, otherwise a command whose
      message is a batch of exactly those commands in the same order. */
  function Batch(cmds: seq<Cmd>): (c: Cmd)
    ensures c == NoCmd <==> |cmds| == 0
    ensures forall effects: nat -> Msg :: c != NoCmd ==> RunCmd(c, effects) == BatchMsg(cmds)
  {
    if |cmds| == 0 then NoCmd else Yield(BatchMsg(cmds))
  }

  // ---------------------------------------------------------------------
  // Rendering

  /** `strings.Replace(view, "\n", "\r\n", -1)`: one character longer for
      every newline. */
  function Normalize(view: string): (s: string)
    ensures |s| == |view| + NewlineCount(view)
  {
    if |view| == 0 then ""
    else (if view[0] == '\n' then "\r\n" else [view[0]]) + Normalize(view[1..])
  }

  /** `strings.Replace(s, "\r\n", "\n", -1)`: the left-to-right,
      non-overlapping replacement that undoes `Normalize`. */
  function Denormalize(s: string): string
  {
    if |s| == 0 then ""
    else if |s| >= 2 && s[0] == '\r' && s[1] == '\n' then "\n" + Denormalize(s[2..])
    else [s[0]] + Denormalize(s[1..])
  }

  /** `strings.Count(s, "\r\n")`: non-overlapping occurrences, left to right. */
  function CountCRLF(s: string): nat
  {
    if |s| < 2 then 0
    else if s[0] == '\r' && s[1] == '\n' then 1 + CountCRLF(s[2..])
    else CountCRLF(s[1..])
  }

  /** The number of '\n' characters in `s`. */
  function NewlineCount(s: string): nat
  {
    if |s| == 0 then 0 else (if s[0] == '\n' then 1 else 0) + NewlineCount(s[1..])
  }

  /** Every '\n' in `s` comes right after a '\r'. */
  predicate CarriageReturned(s: string)
  {
    forall i :: 0 <= i < |s| && s[i] == '\n' ==> i > 0 && s[i - 1] == '\r'
  }

  lemma {:induction false} NormalizeShape(view: string)
    ensures NewlineCount(Normalize(view)) == NewlineCount(view)
    ensures CountCRLF(Normalize(view)) == NewlineCount(view)
    ensures CarriageReturned(Normalize(view))
    ensures |Normalize(view)| > 0 ==> Normalize(view)[0] != '\n'
  {
    if |view| > 0 {
      var rest := Normalize(view[1..]);
      NormalizeShape(view[1..]);
      if view[0] == '\n' {
        var s := "\r\n" + rest;
        assert s[2..] == rest;
        assert s[1..] == "\n" + rest;
        assert NewlineCount(s[1..]) == 1 + NewlineCount(rest) by {
          assert (s[1..])[1..] == rest;
        }
        forall i | 0 <= i < |s| && s[i] == '\n' ensures i > 0 && s[i - 1] == '\r' {
          if i >= 2 { assert s[i] == rest[i - 2]; }
        }
      } else {
        var s := [view[0]] + rest;
        assert s[1..] == rest;
        if view[0] == '\r' && |rest| > 0 {
          assert rest[0] != '\n';
        }
        forall i | 0 <= i < |s| && s[i] == '\n' ensures i > 0 && s[i - 1] == '\r' {
          assert i >= 1;
          assert s[i] == rest[i - 1];
        }
      }
    }
  }

  /** Normalising loses nothing: replacing "\r\n" back by "\n" restores the
      view, even when it already held carriage returns. */
  lemma {:induction false} NormalizeRoundTrip(view: string)
    ensures Denormalize(Normalize(view)) == view
  {
    if |view| > 0 {
      var rest := Normalize(view[1..]);
      NormalizeShape(view[1..]);
      NormalizeRoundTrip(view[1..]);
      if view[0] == '\n' {
        assert ("\r\n" + rest)[2..] == rest;
      } else {
        assert ([view[0]] + rest)[1..] == rest;
      }
    }
  }

  /** What one call of `render` does to the terminal: clear `cleared` lines
      (no clear at all when 0), write `text`, and report `lines`. */
  datatype Paint = Paint(cleared: nat, text: string, lines: nat)

  /** `render(model, linesRendered)` given the view text of the model. */
  function Render(view: string, linesRendered: int): (p: Paint)
    ensures p.lines == NewlineCount(view)
    ensures CarriageReturned(p.text) && Denormalize(p.text) == view
    ensures linesRendered > 0 ==> p.cleared == linesRendered
    ensures linesRendered <= 0 ==> p.cleared == 0
  {
    var text := Normalize(view);
    NormalizeShape(view);
    NormalizeRoundTrip(view);
    Paint(if linesRendered > 0 then linesRendered else 0, text, CountCRLF(text))
  }

  /** A repaint after a 3-line view followed by a 1-line view clears
      exactly the 3 lines painted before. */
  lemma RepaintClearsPreviousLines()
    ensures var first := Render("a\nb\nc\n", 0);
            var second := Render("d\n", first.lines);
            first.cleared == 0 && first.lines == 3 && second.cleared == 3 && second.lines == 1
  {
  }

  // ---------------------------------------------------------------------
  // The main dispatch loop

  /** One thing the loop of `Start` receives: an error from the input pump,
      or a message from the message channel. */
  datatype Event = InputError(err: string) | Received(msg: Msg)

  /** The locals the loop reassigns: the model, the commands handed to the
      command processor so far (oldest first), the line count of the last
      paint, and every paint so far. */
  datatype Loop<M> = Loop(model: M, queue: seq<Cmd>, linesRendered: int, screen: seq<Paint>)

  /** The loop either goes on, or `Start` returns (nil or an error). */
  datatype Status<M> = Continue(state: Loop<M>) | Exit(err: Wrappers.Option<string>)

  /** The state after `init` and the first paint: the initial command, if
      not nil, goes to the processor; the first paint starts from 0 lines. */
  function Boot<M>(model: M, cmd: Cmd, view: M -> string): (s: Loop<M>)
    ensures s.model == model && s.linesRendered == NewlineCount(view(model))
    ensures s.queue == (if cmd == NoCmd then [] else [cmd])
    ensures s.screen == [Render(view(model), 0)] && s.screen[0].cleared == 0
  {
    var p := Render(view(model), 0);
    Loop(model, if cmd != NoCmd then [cmd] else [], p.lines, [p])
  }

  /** The events that end the loop. */
  predicate Stops(e: Event)
  {
    e.InputError? || e.msg.QuitMsg?
  }

  /** One iteration of the loop of `Start` for one event: it ends the loop
      exactly on an error or a quit, and otherwise only appends to the
      command queue and to the paints. */
  function Step<M>(s: Loop<M>, e: Event, update: (Msg, M) -> (M, Cmd), view: M -> string): (r: Status<M>)
    ensures r.Exit? <==> Stops(e)
    ensures r.Continue? ==> s.queue <= r.state.queue && s.screen <= r.state.screen
  {
    match e
    case InputError(err) => Exit(Wrappers.Some(err))
    case Received(msg) =>
      if msg.QuitMsg? then Exit(Wrappers.None)
      else if msg.BatchMsg? then Continue(s.(queue := s.queue + msg.cmds))
      else
        var (model, cmd) := update(msg, s.model);
        var p := Render(view(model), s.linesRendered);
        Continue(Loop(model, s.queue + [cmd], p.lines, s.screen + [p]))
  }

  /** The loop fed `events` in order: it stops at the first quit or error;
      if the events run out it is still waiting for the next one. */
  function Run<M>(s: Loop<M>, events: seq<Event>, update: (Msg, M) -> (M, Cmd), view: M -> string): (r: Status<M>)
    ensures r.Continue? <==> forall i :: 0 <= i < |events| ==> !Stops(events[i])
    decreases |events|
  {
    if |events| == 0 then Continue(s)
    else
      assert forall i :: 1 <= i < |events| ==> events[i] == events[1..][i - 1];
      match Step(s, events[0], update, view)
      case Exit(err) => Exit(err)
      case Continue(s') => Run(s', events[1..], update, view)
  }

  /** On an input error `Start` returns that error, and on a quit message
      it returns nil; quit is looked at before batch, so neither `update`
      nor a repaint runs for it. */
  lemma StepStops<M>(s: Loop<M>, e: Event, update: (Msg, M) -> (M, Cmd), view: M -> string)
    ensures e.InputError? ==> Step(s, e, update, view) == Exit(Wrappers.Some(e.err))
    ensures e == Received(QuitMsg) ==> Step(s, e, update, view) == Exit(Wrappers.None)
  {
  }

  /** Once the first stopping event arrives, `Start` returns what it says,
      and nothing received after it is looked at. */
  lemma {:induction false} RunStopsAtFirstStop<M>(s: Loop<M>, events: seq<Event>, i: nat,
      update: (Msg, M) -> (M, Cmd), view: M -> string)
    requires i < |events| && Stops(events[i])
    requires forall j :: 0 <= j < i ==> !Stops(events[j])
    ensures Run(s, events, update, view) == Run(s, events[..i + 1], update, view)
    ensures Run(s, events, update, view)
         == Exit(if events[i].InputError? then Wrappers.Some(events[i].err) else Wrappers.None)
    decreases i
  {
    assert events[..i + 1][0] == events[0];
    if i > 0 {
      var s' := Step(s, events[0], update, view).state;
      assert events[..i + 1][1..] == events[1..][..i];
      RunStopsAtFirstStop(s', events[1..], i - 1, update, view);
    }
  }

  /** A batch message is not given to `update`: its commands join the queue
      in their order, and the model, the line count and the screen stay. */
  lemma StepBatch<M>(s: Loop<M>, cmds: seq<Cmd>, update: (Msg, M) -> (M, Cmd), view: M -> string)
    ensures Step(s, Received(BatchMsg(cmds)), update, view)
         == Continue(Loop(s.model, s.queue + cmds, s.linesRendered, s.screen))
  {
  }

  /** Any other message: the model becomes `update`'s, its command joins the
      queue even when nil, and the view of the new model is painted. */
  lemma StepUpdate<M>(s: Loop<M>, msg: Msg, update: (Msg, M) -> (M, Cmd), view: M -> string)
    requires msg.KeyMsg? || msg.AppMsg?
    ensures var (m, c) := update(msg, s.model);
            Step(s, Received(msg), update, view)
              == Continue(Loop(m, s.queue + [c], NewlineCount(view(m)), s.screen + [Render(view(m), s.linesRendered)]))
  {
  }

  /** The screen log is a chain of full repaints: the first paint clears
      nothing, and each later paint clears exactly the lines of the one
      before it. */
  predicate Chained(screen: seq<Paint>)
  {
    |screen| > 0 && screen[0].cleared == 0 &&
    forall k :: 0 < k < |screen| ==> screen[k].cleared == screen[k - 1].lines
  }

  /** What the loop keeps true between events: the last paint wrote the
      current model's view, and the recorded line count is that view's and
      the last paint's. */
  predicate Painted<M>(s: Loop<M>, view: M -> string)
  {
    Chained(s.screen) &&
    s.linesRendered == NewlineCount(view(s.model)) &&
    s.screen[|s.screen| - 1].lines == s.linesRendered &&
    s.screen[|s.screen| - 1].text == Normalize(view(s.model))
  }

  lemma BootPainted<M>(model: M, cmd: Cmd, view: M -> string)
    ensures Painted(Boot(model, cmd, view), view)
  {
  }

  lemma StepPainted<M>(s: Loop<M>, e: Event, update: (Msg, M) -> (M, Cmd), view: M -> string)
    requires Painted(s, view)
    ensures Step(s, e, update, view).Continue? ==> Painted(Step(s, e, update, view).state, view)
  {
  }

  /** However many events the loop handles, the terminal always shows the
      view of the current model, and every repaint erases exactly the lines
      of the paint before it. */
  lemma {:induction false} RunPainted<M>(s: Loop<M>, events: seq<Event>, update: (Msg, M) -> (M, Cmd), view: M -> string)
    requires Painted(s, view)
    ensures Run(s, events, update, view).Continue? ==> Painted(Run(s, events, update, view).state, view)
    decreases |events|
  {
    if |events| > 0 {
      StepPainted(s, events[0], update, view);
      match Step(s, events[0], update, view)
      case Exit(_) =>
      case Continue(s') => RunPainted(s', events[1..], update, view);
    }
  }

  /** The loop never loses a command: the queue only grows, by appending. */
  lemma {:induction false} RunQueueGrows<M>(s: Loop<M>, events: seq<Event>, update: (Msg, M) -> (M, Cmd), view: M -> string)
    ensures Run(s, events, update, view).Continue? ==>
              s.queue <= Run(s, events, update, view).state.queue
    decreases |events|
  {
    if |events| > 0 {
      match Step(s, events[0], update, view)
      case Exit(_) =>
      case Continue(s') => RunQueueGrows(s', events[1..], update, view);
    }
  }

  /** `Start` after `init` has returned `model` and `cmd`, fed `events`:
      the loop of boba.go, with the batch loop and the channel sends
      written out as appends to the queue. */
  method Start<M>(model: M, cmd: Cmd, events: seq<Event>, update: (Msg, M) -> (M, Cmd), view: M -> string)
    returns (status: Status<M>)
    ensures status == Run(Boot(model, cmd, view), events, update, view)
  {
    var m := model;
    var cmds: seq<Cmd> := [];
    if cmd != NoCmd {
      cmds := cmds + [cmd];
    }
    var screen: seq<Paint> := [];
    var first := Render(view(m), 0);
    screen := screen + [first];
    var linesRendered := first.lines;
    assert Loop(m, cmds, linesRendered, screen) == Boot(model, cmd, view);
    assert events[0..] == events;

    var i := 0;
    while i < |events|
      invariant 0 <= i <= |events|
      invariant Run(Boot(model, cmd, view), events, update, view)
             == Run(Loop(m, cmds, linesRendered, screen), events[i..], update, view)
    {
      assert events[i..][0] == events[i] && events[i..][1..] == events[i + 1..];
      match events[i]
      case InputError(err) =>
        return Exit(Wrappers.Some(err));
      case Received(msg) =>
        if msg.QuitMsg? {
          return Exit(Wrappers.None);
        }
        if msg.BatchMsg? {
          ghost var before := cmds;
          var j := 0;
          while j < |msg.cmds|
            invariant 0 <= j <= |msg.cmds|
            invariant cmds == before + msg.cmds[..j]
          {
            cmds := cmds + [msg.cmds[j]];
            j := j + 1;
          }
          assert msg.cmds[..j] == msg.cmds;
        } else {
          var next := update(msg, m);
          m := next.0;
          cmds := cmds + [next.1];
          var p := Render(view(m), linesRendered);
          screen := screen + [p];
          linesRendered := p.lines;
        }
      i := i + 1;
    }
    return Continue(Loop(m, cmds, linesRendered, screen));
  }

  // ---------------------------------------------------------------------
  // The command processor

  /** The commands in `queue` that are not nil, in queue order. */
  function NonNil(queue: seq<Cmd>): (started: seq<Cmd>)
    ensures NoCmd !in started
    ensures forall c :: c in started <==> c in queue && c != NoCmd
    ensures |started| <= |queue|
  {
    if |queue| == 0 then []
    else
      assert forall c :: c in queue <==> c == queue[0] || c in queue[1..];
      (if queue[0] == NoCmd then [] else [queue[0]]) + NonNil(queue[1..])
  }

  lemma {:induction false} NonNilConcat(a: seq<Cmd>, b: seq<Cmd>)
    ensures NonNil(a + b) == NonNil(a) + NonNil(b)
  {
    if |a| == 0 {
      assert a + b == b;
    } else {
      assert (a + b)[0] == a[0];
      assert (a + b)[1..] == a[1..] + b;
      NonNilConcat(a[1..], b);
      var head := if a[0] == NoCmd then [] else [a[0]];
      assert NonNil(a + b) == head + NonNil(a[1..] + b);
      assert NonNil(a) == head + NonNil(a[1..]);
    }
  }

  /** The processor starts the commands of a batch after everything queued
      before it, in the batch's order, skipping the nil ones. */
  lemma BatchStartsInOrder<M>(s: Loop<M>, cmds: seq<Cmd>, update: (Msg, M) -> (M, Cmd), view: M -> string)
    ensures var after := Step(s, Received(BatchMsg(cmds)), update, view);
            after.Continue? && NonNil(after.state.queue) == NonNil(s.queue) + NonNil(cmds)
  {
    NonNilConcat(s.queue, cmds);
  }

  /** The command processor: receives each queued command in turn and
      starts a goroutine for it unless it is nil. Returns the commands
      started, in the order they were started. */
  method ProcessCommands(queue: seq<Cmd>) returns (started: seq<Cmd>)
    ensures started == NonNil(queue)
  {
    started := [];
    var i := 0;
    while i < |queue|
      invariant 0 <= i <= |queue|
      invariant NonNil(queue) == started + NonNil(queue[i..])
    {
      assert queue[i..][1..] == queue[i + 1..];
      if queue[i] != NoCmd {
        started := started + [queue[i]];
      }
      i := i + 1;
    }
    assert queue[i..] == [];
  }

  // ---------------------------------------------------------------------
  // Every

  /** `t.Truncate(d)` for a time given as nanoseconds since the zero time:
      rounded down to a multiple of `d`; unchanged when `d <= 0`. */
  function Truncate(t: int, d: int): int
  {
    if d <= 0 then t else t - t % d
  }

  /** The delay `Every(duration, fn)` waits when it runs at time `now`:
      `now.Truncate(duration).Add(duration).Sub(now)`. For a positive
      duration it ends on the next multiple of the duration after `now`. */
  function EveryDelay(now: int, duration: int): (delay: int)
    ensures duration <= 0 ==> delay == duration
    ensures duration > 0 ==> 0 < delay <= duration
    ensures duration > 0 ==> now + delay == (now / duration + 1) * duration
  {
    if duration > 0 then
      assert (now / duration + 1) * duration == (now / duration) * duration + duration;
      Truncate(now, duration) + duration - now
    else
      Truncate(now, duration) + duration - now
  }

  /** The delay is the only wait in (0, duration] that lands on a multiple
      of the duration: `Every` ticks at the next clock boundary. */
  lemma EveryDelayUnique(now: int, duration: int, wait: int, k: int)
    requires duration > 0 && 0 < wait <= duration && now + wait == k * duration
    ensures wait == EveryDelay(now, duration)
  {
    var q := now / duration + 1;
    assert (k - q) * duration == k * duration - q * duration;
    if k > q {
      var x := k - q - 1;
      assert (k - q) * duration == x * duration + duration;
      assert x * duration >= 0;
    } else if k < q {
      var x := q - k - 1;
      assert (q - k) * duration == x * duration + duration;
      assert x * duration >= 0;
      assert (q - k) * duration == q * duration - k * duration;
    }
  }

  /** The example of `Every`'s documentation: ticking every minute with the
      clock at 12:34:20 on any day waits 40 seconds. */
  lemma EveryExample(day: nat)
    ensures var second := 1_000_000_000;
            var now := day * 86400 * second + (12 * 3600 + 34 * 60 + 20) * second;
            EveryDelay(now, 60 * second) == 40 * second
  {
    var second := 1_000_000_000;
    var minute := 60 * second;
    var now := day * 86400 * second + (12 * 3600 + 34 * 60 + 20) * second;
    assert now == (day * 1440 + 754) * minute + 20 * second;
    var wait := 40 * second;
    assert now + wait == (day * 1440 + 755) * minute;
    EveryDelayUnique(now, minute, wait, day * 1440 + 755);
  }
}
