/**
 * The process-wide state of the binding and the C functions that change it:
 * the two registry slots of the completion bridge, readline's completion
 * hook, the SIGINT disposition with the saved disposition of the read in
 * flight, and the order of the calls the binding makes into readline and
 * into signal handlers.
 *
 * `lua_readline` as written is modelled in two halves, BeginRead and
 * FinishReadAsWritten: the blocking `readline()` call between them is where
 * readline calls GenFunction, as often as it likes. FinishRead is the
 * corrected second half, which also restores the SIGINT disposition after a
 * completion error. The outcome of the read is an input to both.
 */
module ReadlineBinding {
  import opened CStrings
  import opened Wrappers
  import opened Completion

  /** The signal number of SIGINT (2 on Linux and the BSDs). */
  const SIGINT: int := 2

  /** A SIGINT disposition as `signal()` reports it. */
  datatype Disposition =
    | Default            // SIG_DFL
    | Ignore             // SIG_IGN
    | Error              // SIG_ERR, what signal() returns when it fails
    | Handler(id: nat)   // some other function installed by the host
    | Trap               // readline_sigint, this binding's own handler

  /** The disposition is a function that can be called: not SIG_DFL, SIG_ERR or SIG_IGN. */
  predicate IsFunction(d: Disposition) {
    d != Default && d != Error && d != Ignore
  }

  /** The calls the binding makes that the outside world can observe, in order. */
  datatype Event =
    | InstallSigint(disposition: Disposition)   // signal(SIGINT, ...)
    | CallReadline(prompt: string)              // readline(prompt)
    | FreeLineState                             // rl_free_line_state()
    | CleanupAfterSignal                        // rl_cleanup_after_signal()
    | CallHandler(handler: Disposition, sig: int)

  /** How the blocking `readline()` call ended. */
  datatype ReadOutcome =
    | Line(text: string)                               // a line was returned
    | NoLine(instream: Option<bool>, stdinAtEof: bool) // NULL was returned; end-of-file flags of
                                                       // rl_instream (None: rl_instream is NULL) and stdin
    | Interrupted                                      // SIGINT arrived; readline_sigint jumped back
    | CompletionRaised                                 // a Lua error raised during completion unwound out of readline

  /** The end-of-file test on NULL: rl_instream, or stdin when rl_instream is NULL. */
  function AtEof(instream: Option<bool>, stdinAtEof: bool): bool {
    if instream.Some? then instream.value else stdinAtEof
  }

  /**
   * The calls lua_readline makes once the blocking call has ended, other than
   * by a completion error: on an interrupt readline's cleanup first; then the
   * saved disposition is reinstalled; on an interrupt the saved disposition
   * is then called with the signal number if it is a function.
   */
  function FinishEvents(saved: Disposition, outcome: ReadOutcome): seq<Event> {
    (if outcome.Interrupted? then [FreeLineState, CleanupAfterSignal] else [])
    + [InstallSigint(saved)]
    + (if outcome.Interrupted? && IsFunction(saved) then [CallHandler(saved, SIGINT)] else [])
  }

  /** A value `lua_readline` returns to Lua. */
  datatype LuaResult = RString(s: string) | RNil

  /** How a call of `lua_readline` ends for its Lua caller. */
  datatype Exit =
    | Returned(values: seq<LuaResult>)
    | Raised   // the Lua error propagates to the caller
    | Spins    // the saved handler jumps back into the interrupt path, which calls it again, forever

  /** What `gen_function` hands to readline: a fresh copy of a candidate, NULL, or no return at all. */
  datatype Reply = Candidate(copy: array<char>) | NoCandidate | CompletionError

  /** The reply carries exactly the iterator's result. */
  ghost predicate Delivers(reply: Reply, r: StepResult)
    reads if reply.Candidate? then {reply.copy} else {}
  {
    match r
    case Yield(s) => reply.Candidate? && reply.copy[..] == s + [NUL]
    case Nil => reply == NoCandidate
    case Raise => reply == CompletionError
  }

  class Binding {
    var generator: Generator        // registry value under REGISTRY_KEY_GENERATOR
    var iter: Iterator              // registry value under REGISTRY_KEY_ITERATOR
    var hooked: bool                // rl_completion_entry_function is gen_function and globalL is set
    var sigint: Disposition         // the process's SIGINT disposition
    var saved: Option<Disposition>  // old_sigint of the lua_readline call in flight, if any
    ghost var trace: seq<Event>

    /** No read in flight, and this binding's trap is not installed. */
    ghost predicate Idle()
      reads this
    {
      saved.None? && sigint != Trap
    }

    /** A read in flight: the trap is installed and the saved disposition is someone else's. */
    ghost predicate Reading()
      reads this
    {
      saved.Some? && saved.value != Trap && sigint == Trap
    }

    /**
     * The binding as loaded, in a process whose SIGINT disposition is d. Before
     * the first read the completion hook is not installed, so readline never
     * looks at the two registry slots. In C both slots start as nil, and
     * calling a nil iterator raises; the model starts them at lua_niliterator
     * and lua_returnnil instead. The two agree because readline always asks
     * for state 0 first, which replaces the iterator before it is called.
     */
    constructor (d: Disposition)
      requires d != Trap
      ensures Idle() && sigint == d && !hooked && trace == []
      ensures generator == NilGen && iter == ReturnNil
    {
      generator, iter := NilGen, ReturnNil;
      hooked := false;
      sigint, saved := d, None;
      trace := [];
    }

    /** lua_initgenerator: call the stored generator with the text and store what it returns as the iterator. */
    method InitGenerator(text: string)
      modifies this`iter
      ensures iter == Start(generator, text)
    {
      iter := Start(generator, text);
    }

    /**
     * lua_iterstep: repeat the ipairs call, writing the returned control value
     * back into the closure each time, until it returns nil or an entry that
     * passes the prefix test.
     */
    method IterStep() returns (r: StepResult)
      requires iter.Ipairs?
      modifies this`iter
      ensures r == Step(old(iter)).0
      ensures iter == Step(old(iter)).1
    {
      var t, p := iter.table, iter.prefix;
      if iter.key.None? {
        // ipairs rejects a nil control value
        r := Raise;
        return;
      }
      var k := iter.key.value;
      ghost var goal := Scan(t, k, p);
      while true
        invariant iter == Ipairs(t, Some(k), p)
        invariant Scan(t, k, p) == goal
        decreases |t| - k
      {
        if k >= |t| {
          // ipairs returns nil, and nil is stored as the control value
          iter := Ipairs(t, None, p);
          r := Nil;
          return;
        }
        k := k + 1;
        iter := Ipairs(t, Some(k), p);
        if PrefixTest(p, t[k - 1]) {
          r := Yield(t[k - 1]);
          return;
        }
      }
    }

    /**
     * lua_stepgenerator: call the stored iterator; nil becomes NULL, a string
     * becomes a freshly allocated copy.
     */
    method StepGenerator() returns (reply: Reply)
      modifies this`iter
      ensures iter == Step(old(iter)).1
      ensures Delivers(reply, Step(old(iter)).0)
      ensures reply.Candidate? ==> fresh(reply.copy)
    {
      var r: StepResult;
      match iter {
        case ReturnNil =>
          r := Nil;
        case Ipairs(_, _, _) =>
          r := IterStep();
        case Host(next, calls) =>
          r := next(calls);
          iter := Host(next, calls + 1);
      }
      match r {
        case Yield(s) =>
          var copy := Duplicate(s);
          reply := Candidate(copy);
        case Nil =>
          reply := NoCandidate;
        case Raise =>
          reply := CompletionError;
      }
    }

    /**
     * gen_function, readline's completion entry: state 0 starts a generation
     * (the stored generator is called once with the text and its iterator
     * replaces the stored one); every call then steps the stored iterator.
     */
    method GenFunction(text: string, state: int) returns (reply: Reply)
      modifies this`iter
      ensures var it := if state == 0 then Start(generator, text) else old(iter);
        iter == Step(it).1 && Delivers(reply, Step(it).0)
      ensures reply.Candidate? ==> fresh(reply.copy)
    {
      if state == 0 {
        InitGenerator(text);
      }
      reply := StepGenerator();
    }

    /**
     * lua_readline up to the blocking call: store the generator for the
     * second argument, install the completion hook, save the SIGINT
     * disposition while installing readline_sigint, and call readline.
     * lua_readline is not reentrant, hence no read may be in flight.
     */
    method BeginRead(prompt: string, arg: LuaValue)
      requires saved.None?
      modifies this`generator, this`hooked, this`sigint, this`saved, this`trace
      ensures generator == Dispatch(arg) && hooked
      ensures saved == Some(old(sigint)) && sigint == Trap
      ensures trace == old(trace) + [InstallSigint(Trap), CallReadline(prompt)]
    {
      generator := Dispatch(arg);
      hooked := true;
      saved := Some(sigint);
      sigint := Trap;
      trace := trace + [InstallSigint(Trap), CallReadline(prompt)];
    }

    /** signal(SIGINT, d) */
    method Install(d: Disposition)
      modifies this`sigint, this`trace
      ensures sigint == d && trace == old(trace) + [InstallSigint(d)]
    {
      sigint := d;
      trace := trace + [InstallSigint(d)];
    }

    /**
     * lua_readline after the blocking call, as written. A Lua error raised
     * during completion unwinds past this code, so the trap stays installed.
     * On an interrupt, when the saved disposition is the trap itself, calling
     * it jumps straight back into the interrupt path.
     */
    method FinishReadAsWritten(outcome: ReadOutcome) returns (exit: Exit)
      requires saved.Some?
      modifies this`sigint, this`saved, this`trace
      ensures outcome.CompletionRaised? ==>
        exit == Raised && saved == None && sigint == old(sigint) && trace == old(trace)
      ensures !outcome.CompletionRaised? ==>
        sigint == old(saved.value) && trace == old(trace) + FinishEvents(old(saved.value), outcome)
      ensures outcome.Line? ==> exit == Returned([RString(outcome.text)]) && saved == None
      ensures outcome.NoLine? ==>
        exit == Returned(if AtEof(outcome.instream, outcome.stdinAtEof) then [] else [RNil]) && saved == None
      ensures outcome.Interrupted? && old(saved.value) == Trap ==> exit == Spins && saved == old(saved)
      ensures outcome.Interrupted? && old(saved.value) != Trap ==> exit == Returned([]) && saved == None
    {
      var oldSigint := saved.value;
      match outcome {
        case CompletionRaised =>
          saved := None;
          exit := Raised;
        case Interrupted =>
          trace := trace + [FreeLineState, CleanupAfterSignal];
          Install(oldSigint);
          if IsFunction(oldSigint) {
            trace := trace + [CallHandler(oldSigint, SIGINT)];
          }
          if oldSigint == Trap {
            exit := Spins;
          } else {
            saved := None;
            exit := Returned([]);
          }
        case Line(text) =>
          Install(oldSigint);
          saved := None;
          exit := Returned([RString(text)]);
        case NoLine(instream, stdinAtEof) =>
          Install(oldSigint);
          saved := None;
          exit := if AtEof(instream, stdinAtEof) then Returned([]) else Returned([RNil]);
      }
    }

    /**
     * The corrected second half of lua_readline: the code's results, with
     * the SIGINT disposition restored on every exit, a propagating
     * completion error included (the code skips that restore).
     */
    method FinishRead(outcome: ReadOutcome) returns (exit: Exit)
      requires Reading()
      modifies this`sigint, this`saved, this`trace
      ensures Idle() && sigint == old(saved.value)
      ensures outcome.Line? ==> exit == Returned([RString(outcome.text)])
      ensures outcome.NoLine? ==>
        exit == Returned(if AtEof(outcome.instream, outcome.stdinAtEof) then [] else [RNil])
      ensures outcome.Interrupted? ==> exit == Returned([])
      ensures outcome.CompletionRaised? ==> exit == Raised
      ensures trace == old(trace) + FinishEvents(old(saved.value), outcome)
    {
      if outcome.CompletionRaised? {
        Install(saved.value);
        saved := None;
        exit := Raised;
      } else {
        exit := FinishReadAsWritten(outcome);
      }
    }

    /**
     * lua_readline as a whole, as written, for a read during which readline
     * asks for no completion. Any disposition may be in force when it starts,
     * readline_sigint left behind by an earlier completion error included.
     */
    method ReadLine(prompt: string, arg: LuaValue, outcome: ReadOutcome) returns (exit: Exit)
      requires saved.None?
      modifies this`generator, this`hooked, this`sigint, this`saved, this`trace
      ensures generator == Dispatch(arg) && hooked
      ensures outcome.CompletionRaised? ==>
        exit == Raised && saved == None && sigint == Trap
        && trace == old(trace) + [InstallSigint(Trap), CallReadline(prompt)]
      ensures !outcome.CompletionRaised? ==>
        sigint == old(sigint)
        && trace == old(trace) + [InstallSigint(Trap), CallReadline(prompt)] + FinishEvents(old(sigint), outcome)
      ensures outcome.Line? ==> exit == Returned([RString(outcome.text)]) && saved == None
      ensures outcome.NoLine? ==>
        exit == Returned(if AtEof(outcome.instream, outcome.stdinAtEof) then [] else [RNil]) && saved == None
      ensures outcome.Interrupted? && old(sigint) == Trap ==> exit == Spins && saved == Some(Trap)
      ensures outcome.Interrupted? && old(sigint) != Trap ==> exit == Returned([]) && saved == None
    {
      BeginRead(prompt, arg);
      exit := FinishReadAsWritten(outcome);
    }

    /**
     * lua_readline as a whole with the disposition restored on every exit.
     * Started idle, it ends idle with the disposition it found, whatever the
     * outcome; so readline_sigint is never in force between reads.
     */
    method ReadLineRestoring(prompt: string, arg: LuaValue, outcome: ReadOutcome) returns (exit: Exit)
      requires Idle()
      modifies this`generator, this`hooked, this`sigint, this`saved, this`trace
      ensures Idle() && sigint == old(sigint)
      ensures generator == Dispatch(arg) && hooked
      ensures outcome.Line? ==> exit == Returned([RString(outcome.text)])
      ensures outcome.NoLine? ==>
        exit == Returned(if AtEof(outcome.instream, outcome.stdinAtEof) then [] else [RNil])
      ensures outcome.Interrupted? ==> exit == Returned([])
      ensures outcome.CompletionRaised? ==> exit == Raised
      ensures trace == old(trace) + [InstallSigint(Trap), CallReadline(prompt)] + FinishEvents(old(sigint), outcome)
    {
      BeginRead(prompt, arg);
      exit := FinishRead(outcome);
    }
  }

  /**
   * As written: a completion error skips the restore, so readline_sigint is
   * still in force when the next read starts (readline's own signal handling
   * is not part of this model; it is taken to leave SIGINT as it found it).
   * That read saves readline_sigint as "the old handler", and Ctrl-C during
   * it calls that handler from the interrupt path, which jumps back into the
   * interrupt path: the read spins instead of returning. The first read's
   * source is a function whose iterator raises, so Tab makes gen_function
   * fail and the read ends with that error.
   */
  method CompletionErrorThenInterrupt(b: Binding) returns (reply: Reply, first: Exit, second: Exit)
    requires b.Idle()
    modifies b
    ensures reply == CompletionError
    ensures first == Raised && second == Spins
    ensures b.sigint == Trap && b.saved == Some(Trap)
  {
    var raising: HostFunction := p => i => Raise;
    b.BeginRead("> ", Function(raising));
    reply := b.GenFunction("he", 0);
    first := b.FinishReadAsWritten(CompletionRaised);
    second := b.ReadLine("> ", NoValue, Interrupted);
  }

  /** With the disposition restored on every exit, the same sequence returns normally both times. */
  method CompletionErrorThenInterruptRestoring(b: Binding) returns (reply: Reply, first: Exit, second: Exit)
    requires b.Idle()
    modifies b
    ensures reply == CompletionError
    ensures first == Raised && second == Returned([])
    ensures b.Idle() && b.sigint == old(b.sigint)
  {
    var raising: HostFunction := p => i => Raise;
    b.BeginRead("> ", Function(raising));
    reply := b.GenFunction("he", 0);
    first := b.FinishRead(CompletionRaised);
    second := b.ReadLineRestoring("> ", NoValue, Interrupted);
  }

  /**
   * A read with a table source: Tab on "hel" asks gen_function for state 0,
   * 1 and 2, and gets the two matching entries in table order, then NULL.
   */
  method TableCompletionDuringRead(b: Binding) returns (r0: Reply, r1: Reply, r2: Reply)
    requires b.Idle()
    modifies b
    ensures Delivers(r0, Yield("help")) && Delivers(r1, Yield("hello")) && r2 == NoCandidate
  {
    b.BeginRead("> ", Table(["help", "quit", "hello"]));
    r0 := b.GenFunction("hel", 0);
    r1 := b.GenFunction("hel", 1);
    r2 := b.GenFunction("hel", 2);
  }
}
