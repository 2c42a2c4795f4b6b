/** The `tmux_format` generator: it yields the bootstrap template once and
    then the new-window template forever. `FormatAt` is the index-based
    reading of the same sequence. */
module TmuxFormat {
  import opened Templates

  /** `Fresh`: not yet pulled. `Looping`: pulled at least once. The Python
      generator is suspended at its first `yield` after one pull and inside
      `while True` after later ones; both points yield the new-window
      template on the next pull and stay there, so one state stands for both. */
  datatype Generator = Fresh | Looping

  /** One `next(...)`: the yielded template and the generator's new state. */
  function Next(g: Generator): (r: (Template, Generator))
    ensures r.1 == Looping
    ensures r.0 == NewWindow <==> g == Looping
  {
    assert Bootstrap[0] == Text("tmux has-session 2> /dev/null ");
    match g
    case Fresh => (Bootstrap, Looping)
    case Looping => (NewWindow, Looping)
  }

  /** The generator's state after `n` pulls from state `g`. */
  function Advance(g: Generator, n: nat): Generator
    decreases n
  {
    if n == 0 then g else Advance(Next(g).1, n - 1)
  }

  /** The template at position `i` of the generated sequence. */
  function FormatAt(i: nat): Template
  {
    if i == 0 then Bootstrap else NewWindow
  }

  /** Once pulled, the generator stays in the state that yields new-window,
      however many further pulls follow. */
  lemma {:induction false} AdvanceFromLooping(n: nat)
    ensures Advance(Looping, n) == Looping
    decreases n
  {
    if n > 0 {
      AdvanceFromLooping(n - 1);
    }
  }

  /** Pulling the generator for the (i+1)-th time yields `FormatAt(i)`: the
      bootstrap template exactly once, first, then new-window on every
      later pull, with no bound on the number of pulls. */
  lemma PullYieldsFormatAt(i: nat)
    ensures Next(Advance(Fresh, i)).0 == FormatAt(i)
    ensures Next(Advance(Fresh, i)).1 == Advance(Fresh, i + 1)
  {
    if i > 0 {
      AdvanceFromLooping(i - 1);
      AdvanceFromLooping(i);
    }
  }
}
