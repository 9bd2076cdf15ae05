/**
 * The embedding side of ruby.cc: the Ruby runtime's global variables, the
 * guard that points `$stdout` at `$stderr` while custom facts resolve, and
 * `load_custom_facts` with its two shorter overloads.
 */
module RubyBridge {

  /** A Ruby object handle (a C API `VALUE`), or nil. */
  datatype Val = NilVal | Obj(id: nat)

  /**
   * What custom fact code does that the guard can observe: assign a global
   * variable, write a line with `puts` (to whatever `$stdout` then is), or
   * raise, which ends the code.
   */
  datatype Action = SetGlobal(name: string, v: Val) | Puts(text: string) | Raise

  /** A line of output and the stream object it went to. */
  datatype Line = Line(stream: Val, text: string)

  /** The runtime's global variables and the output written so far. */
  datatype RtState = RtState(globals: map<string, Val>, written: seq<Line>)

  /** The final state of running some code, and whether it raised. */
  datatype Run = Run(state: RtState, raised: bool)

  const Stdout: string := "$stdout"
  const Stderr: string := "$stderr"

  /** `rb_gv_get`: a global variable that was never set reads as nil. */
  function Global(g: map<string, Val>, name: string): (v: Val)
    ensures name !in g ==> v == NilVal
    ensures name in g ==> v == g[name]
  {
    if name in g then g[name] else NilVal
  }

  /** Running custom fact code from state `s`, up to its end or its first raise. */
  function Exec(s: RtState, code: seq<Action>): (r: Run)
    ensures s.written <= r.state.written
    decreases |code|
  {
    if code == [] then Run(s, false)
    else
      match code[0]
      case Raise => Run(s, true)
      case SetGlobal(name, v) => Exec(s.(globals := s.globals[name := v]), code[1..])
      case Puts(text) => Exec(s.(written := s.written + [Line(Global(s.globals, Stdout), text)]), code[1..])
  }

  /** The code never assigns `name`. */
  predicate NeverAssigns(code: seq<Action>, name: string) {
    forall i :: 0 <= i < |code| ==> !(code[i].SetGlobal? && code[i].name == name)
  }

  /** Entering the guard: `$stdout` now names the `$stderr` object. */
  function Redirect(s: RtState): RtState {
    s.(globals := s.globals[Stdout := Global(s.globals, Stderr)])
  }

  /** Leaving the guard: `$stdout` is set back to the saved object. */
  function Restore(s: RtState, saved: Val): RtState {
    s.(globals := s.globals[Stdout := saved])
  }

  /** Resolution inside the guard, left on the normal path and on a raise alike. */
  function Guarded(s: RtState, code: seq<Action>): Run {
    var inside := Exec(Redirect(s), code);
    Run(Restore(inside.state, Global(s.globals, Stdout)), inside.raised)
  }

  /** Resolution, under the guard only when stdout is redirected. */
  function Resolve(s: RtState, redirectStdout: bool, code: seq<Action>): Run {
    if redirectStdout then Guarded(s, code) else Exec(s, code)
  }

  /** All of `load_custom_facts`: the bootstrap (its raise caught), then resolution. */
  function Load(s: RtState, initializePuppet: bool, redirectStdout: bool,
                bootstrap: seq<Action>, code: seq<Action>): Run
  {
    var ready := if initializePuppet then Exec(s, bootstrap).state else s;
    Resolve(ready, redirectStdout, code)
  }

  /** The texts of the lines, without their streams. */
  function Texts(w: seq<Line>): (t: seq<string>)
    ensures |t| == |w|
  {
    if w == [] then [] else Texts(w[..|w| - 1]) + [w[|w| - 1].text]
  }

  lemma TextsAppend(w: seq<Line>, l: Line)
    ensures Texts(w + [l]) == Texts(w) + [l.text]
  {
    assert (w + [l])[..|w|] == w;
  }

  /** Code that never assigns `$stdout` writes every line to the `$stdout` it started with. */
  lemma {:induction false} ExecWritesToStdout(s: RtState, code: seq<Action>)
    requires NeverAssigns(code, Stdout)
    ensures var r := Exec(s, code).state;
      forall j :: |s.written| <= j < |r.written| ==> r.written[j].stream == Global(s.globals, Stdout)
    decreases |code|
  {
    if code != [] {
      assert NeverAssigns(code[1..], Stdout) by {
        forall i | 0 <= i < |code[1..]| ensures !(code[1..][i].SetGlobal? && code[1..][i].name == Stdout) {
          assert code[1..][i] == code[i + 1];
        }
      }
      match code[0]
      case Raise =>
      case SetGlobal(name, v) =>
        assert name != Stdout by { assert !(code[0].SetGlobal? && code[0].name == Stdout); }
        var t := s.(globals := s.globals[name := v]);
        assert Global(t.globals, Stdout) == Global(s.globals, Stdout);
        assert Exec(s, code) == Exec(t, code[1..]);
        ExecWritesToStdout(t, code[1..]);
        var r := Exec(s, code).state;
        assert forall j :: |t.written| <= j < |r.written| ==> r.written[j].stream == Global(t.globals, Stdout);
      case Puts(text) =>
        var t := s.(written := s.written + [Line(Global(s.globals, Stdout), text)]);
        assert Exec(s, code) == Exec(t, code[1..]);
        ExecWritesToStdout(t, code[1..]);
        var r := Exec(s, code).state;
        forall j | |s.written| <= j < |r.written| ensures r.written[j].stream == Global(s.globals, Stdout) {
          if j == |s.written| {
            assert r.written[j] == t.written[j];
          }
        }
    }
  }

  /** Code that never assigns `name` leaves that global as it found it. */
  lemma {:induction false} ExecKeeps(s: RtState, code: seq<Action>, name: string)
    requires NeverAssigns(code, name)
    ensures Global(Exec(s, code).state.globals, name) == Global(s.globals, name)
    decreases |code|
  {
    if code != [] {
      assert NeverAssigns(code[1..], name) by {
        forall i | 0 <= i < |code[1..]| ensures !(code[1..][i].SetGlobal? && code[1..][i].name == name) {
          assert code[1..][i] == code[i + 1];
        }
      }
      match code[0]
      case Raise =>
      case SetGlobal(n, v) =>
        assert n != name by { assert !(code[0].SetGlobal? && code[0].name == name); }
        ExecKeeps(s.(globals := s.globals[n := v]), code[1..], name);
      case Puts(text) =>
        ExecKeeps(s.(written := s.written + [Line(Global(s.globals, Stdout), text)]), code[1..], name);
    }
  }

  /** The guard restores `$stdout` exactly, whatever the code did and whether or not it raised. */
  lemma GuardRestoresStdout(s: RtState, code: seq<Action>)
    ensures Global(Guarded(s, code).state.globals, Stdout) == Global(s.globals, Stdout)
  {
  }

  /**
   * Under the guard, code that assigns neither `$stdout` nor `$stderr`
   * writes every line to the `$stderr` object, and `$stderr` is unchanged.
   */
  lemma GuardedOutputGoesToStderr(s: RtState, code: seq<Action>)
    requires NeverAssigns(code, Stdout) && NeverAssigns(code, Stderr)
    ensures var r := Guarded(s, code).state;
      Global(r.globals, Stderr) == Global(s.globals, Stderr) &&
      forall j :: |s.written| <= j < |r.written| ==> r.written[j].stream == Global(s.globals, Stderr)
  {
    ExecWritesToStdout(Redirect(s), code);
    ExecKeeps(Redirect(s), code, Stderr);
  }

  /** Two global maps that agree on every name except `$stdout`. */
  ghost predicate SameExceptStdout(g1: map<string, Val>, g2: map<string, Val>) {
    forall n :: n != Stdout ==> Global(g1, n) == Global(g2, n)
  }

  /**
   * Where `$stdout` points does not change what code does, only where its
   * lines go: started from states that differ at most in `$stdout` and in
   * the streams of the lines written, it raises alike, writes the same
   * texts and leaves the other globals alike.
   */
  lemma {:induction false} ExecIgnoresStdout(s1: RtState, s2: RtState, code: seq<Action>)
    requires SameExceptStdout(s1.globals, s2.globals) && Texts(s1.written) == Texts(s2.written)
    ensures var r1, r2 := Exec(s1, code), Exec(s2, code);
      r1.raised == r2.raised && SameExceptStdout(r1.state.globals, r2.state.globals) &&
      Texts(r1.state.written) == Texts(r2.state.written)
    decreases |code|
  {
    if code != [] {
      match code[0]
      case Raise =>
      case SetGlobal(name, v) =>
        var t1, t2 := s1.(globals := s1.globals[name := v]), s2.(globals := s2.globals[name := v]);
        assert SameExceptStdout(t1.globals, t2.globals) by {
          forall n | n != Stdout ensures Global(t1.globals, n) == Global(t2.globals, n) {
            if n != name {
              assert Global(s1.globals, n) == Global(s2.globals, n);
            }
          }
        }
        ExecIgnoresStdout(t1, t2, code[1..]);
      case Puts(text) =>
        var l1, l2 := Line(Global(s1.globals, Stdout), text), Line(Global(s2.globals, Stdout), text);
        TextsAppend(s1.written, l1);
        TextsAppend(s2.written, l2);
        ExecIgnoresStdout(s1.(written := s1.written + [l1]), s2.(written := s2.written + [l2]), code[1..]);
    }
  }

  /**
   * The guard changes nothing but where output goes: compared with running
   * the code unguarded, it raises alike, writes the same texts and leaves
   * every global other than `$stdout` (so `$stderr` too) alike.
   */
  lemma GuardOnlyRedirects(s: RtState, code: seq<Action>)
    ensures var g, e := Guarded(s, code), Exec(s, code);
      g.raised == e.raised && Texts(g.state.written) == Texts(e.state.written) &&
      forall n :: n != Stdout ==> Global(g.state.globals, n) == Global(e.state.globals, n)
  {
    var inside := Exec(Redirect(s), code);
    var e := Exec(s, code);
    ExecIgnoresStdout(Redirect(s), s, code);
    assert SameExceptStdout(inside.state.globals, e.state.globals);
    forall n | n != Stdout
      ensures Global(Guarded(s, code).state.globals, n) == Global(e.state.globals, n)
    {
      assert Global(inside.state.globals, n) == Global(e.state.globals, n);
    }
  }

  /** Without redirection, code that never assigns `$stdout` writes to the original `$stdout`. */
  lemma UnguardedOutputGoesToStdout(s: RtState, code: seq<Action>)
    requires NeverAssigns(code, Stdout)
    ensures var r := Resolve(s, false, code).state;
      forall j :: |s.written| <= j < |r.written| ==> r.written[j].stream == Global(s.globals, Stdout)
  {
    ExecWritesToStdout(s, code);
    assert Resolve(s, false, code) == Exec(s, code);
  }

  /** The embedded Ruby runtime, reduced to what ruby.cc touches. */
  class Runtime {
    var globals: map<string, Val>
    var written: seq<Line>
    var initialized: bool
    var stackTrace: bool

    constructor (globals: map<string, Val>)
      ensures this.globals == globals && written == [] && !initialized && !stackTrace
    {
      this.globals := globals;
      written := [];
      initialized := false;
      stackTrace := false;
    }

    function State(): RtState
      reads this
    {
      RtState(globals, written)
    }

    /** `rb_gv_get`. */
    function GvGet(name: string): Val
      reads this
    {
      Global(globals, name)
    }

    /** `rb_gv_set`. */
    method GvSet(name: string, v: Val)
      modifies this`globals
      ensures globals == old(globals)[name := v]
    {
      globals := globals[name := v];
    }

    /** `puts` from Ruby code: a line on the object `$stdout` currently names. */
    method Puts(text: string)
      modifies this`written
      ensures written == old(written) + [Line(GvGet(Stdout), text)]
    {
      written := written + [Line(GvGet(Stdout), text)];
    }
  }

  /** `RbStdoutGuard`: the scope during which Ruby's `$stdout` is `$stderr`. */
  class StdoutGuard {
    const ruby: Runtime
    const oldStdout: Val

    /** Saves `$stdout` and points it at the `$stderr` object. */
    constructor (ruby: Runtime)
      modifies ruby`globals
      ensures this.ruby == ruby
      ensures oldStdout == old(ruby.GvGet(Stdout))
      ensures ruby.State() == Redirect(old(ruby.State()))
    {
      this.ruby := ruby;
      var rbStderr := ruby.GvGet(Stderr);
      oldStdout := ruby.GvGet(Stdout);
      new;
      ruby.GvSet(Stdout, rbStderr);
    }

    /** The destructor: puts the saved `$stdout` back. */
    method Exit()
      modifies ruby`globals
      ensures ruby.State() == Restore(old(ruby.State()), oldStdout)
    {
      ruby.GvSet(Stdout, oldStdout);
    }
  }

  /** `module::resolve_facts`, with the custom fact code given as its actions. */
  method ResolveFacts(ruby: Runtime, code: seq<Action>) returns (raised: bool)
    modifies ruby`globals, ruby`written
    ensures Run(ruby.State(), raised) == Exec(old(ruby.State()), code)
  {
    var i := 0;
    while i < |code|
      invariant 0 <= i <= |code|
      invariant Exec(old(ruby.State()), code) == Exec(ruby.State(), code[i..])
    {
      assert code[i..][0] == code[i] && code[i..][1..] == code[i + 1..];
      match code[i] {
        case Raise =>
          return true;
        case SetGlobal(name, v) =>
          ruby.GvSet(name, v);
        case Puts(text) =>
          ruby.Puts(text);
      }
      i := i + 1;
    }
    return false;
  }

  /**
   * `load_custom_facts(facts, initialize_puppet, redirect_stdout, paths)`:
   * the puppet bootstrap when asked for (a raise in it is caught), then
   * resolution, under the stdout guard when asked for. A raise during
   * resolution is passed on, after the guard has restored `$stdout`.
   */
  method LoadCustomFacts(ruby: Runtime, initializePuppet: bool, redirectStdout: bool,
                         bootstrap: seq<Action>, code: seq<Action>) returns (raised: bool)
    modifies ruby`globals, ruby`written
    ensures Run(ruby.State(), raised) == Load(old(ruby.State()), initializePuppet, redirectStdout, bootstrap, code)
  {
    if initializePuppet {
      var failed := ResolveFacts(ruby, bootstrap);
    }
    if redirectStdout {
      var stdoutGuard := new StdoutGuard(ruby);
      raised := ResolveFacts(ruby, code);
      stdoutGuard.Exit();
    } else {
      raised := ResolveFacts(ruby, code);
    }
  }

  /** `load_custom_facts(facts, paths)`: no puppet, no redirection. */
  method LoadCustomFactsPlain(ruby: Runtime, code: seq<Action>) returns (raised: bool)
    modifies ruby`globals, ruby`written
    ensures Run(ruby.State(), raised) == Exec(old(ruby.State()), code)
  {
    raised := LoadCustomFacts(ruby, false, false, [], code);
  }

  /** `load_custom_facts(facts, initialize_puppet, paths)`: no redirection. */
  method LoadCustomFactsPuppet(ruby: Runtime, initializePuppet: bool, bootstrap: seq<Action>,
                               code: seq<Action>) returns (raised: bool)
    modifies ruby`globals, ruby`written
    ensures Run(ruby.State(), raised) == Load(old(ruby.State()), initializePuppet, false, bootstrap, code)
  {
    raised := LoadCustomFacts(ruby, initializePuppet, false, bootstrap, code);
  }

  /**
   * `initialize(include_stack_trace)`: `libraryLoads` says whether the
   * Ruby library could be found and started; when it cannot, the
   * `runtime_error` is caught and the answer is false.
   */
  method Initialize(ruby: Runtime, libraryLoads: bool, includeStackTrace: bool) returns (ok: bool)
    modifies ruby`initialized, ruby`stackTrace
    ensures ok == libraryLoads
    ensures ok ==> ruby.initialized && ruby.stackTrace == includeStackTrace
    ensures !ok ==> ruby.initialized == old(ruby.initialized) && ruby.stackTrace == old(ruby.stackTrace)
  {
    if !libraryLoads {
      return false;
    }
    ruby.initialized := true;
    ruby.stackTrace := includeStackTrace;
    return true;
  }
}
