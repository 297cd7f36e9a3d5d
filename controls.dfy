/** The index navigator of the right panel: a locally edited index, a range
    check with a fixed upper bound, and the handlers that commit a validated
    index to the parent through `changePokemonIndex`. */
module Controls {

  /** The largest entry number the viewer accepts. */
  const NumberOfPokemons: int := 807

  /** The range `checkError` lets through. */
  predicate InRange(n: int)
  {
    1 <= n <= NumberOfPokemons
  }

  /** Every value of `s` is in range. */
  predicate AllInRange(s: seq<int>)
  {
    forall i :: 0 <= i < |s| ==> InRange(s[i])
  }

  /** The bounds of the range, at its edges. */
  lemma RangeEdges()
    ensures !InRange(0) && InRange(1) && InRange(NumberOfPokemons) && !InRange(NumberOfPokemons + 1)
    ensures !InRange(808) && InRange(807)
  {
  }

  /** A snapshot of the navigator: the `pokemonIndex` prop, the local
      `index`, the error flag, and every value passed to
      `changePokemonIndex` so far, oldest first. */
  datatype Nav = Nav(pokemonIndex: int, index: int, error: bool, commits: seq<int>)

  /** The navigator as mounted: `index` starts as the prop. */
  function Initial(pokemonIndex: int): (r: Nav)
    ensures r.index == r.pokemonIndex == pokemonIndex
    ensures !r.error && r.commits == []
  {
    Nav(pokemonIndex, pokemonIndex, false, [])
  }

  /** `handleButton(n)`: an out-of-range `n` only raises the error flag; an
      in-range `n` becomes the local index and is committed once. */
  function Press(st: Nav, n: int): (r: Nav)
    ensures r.pokemonIndex == st.pokemonIndex
    ensures r.error == (st.error || !InRange(n))
    ensures InRange(n) ==> r.index == n && r.commits == st.commits + [n]
    ensures !InRange(n) ==> r.index == st.index && r.commits == st.commits
  {
    if !InRange(n) then st.(error := true)
    else st.(index := n, commits := st.commits + [n])
  }

  /** `handleInputChange`: the typed number becomes the local index,
      unchecked and uncommitted. */
  function Edit(st: Nav, n: int): (r: Nav)
    ensures r.index == n
    ensures r.pokemonIndex == st.pokemonIndex && r.error == st.error && r.commits == st.commits
  {
    st.(index := n)
  }

  /** The key code of a keypress: `keyCode`, or `which` when `keyCode` is
      zero. */
  function PressedCode(keyCode: int, which: int): int
  {
    if keyCode != 0 then keyCode else which
  }

  /** `handleKeyPress` with an already resolved code: Enter (13) commits the
      local index when it is in range and flags an error otherwise; the
      local index never changes; other keys do nothing. */
  function Enter(st: Nav, code: int): (r: Nav)
    ensures r.index == st.index && r.pokemonIndex == st.pokemonIndex
    ensures code != 13 ==> r == st
    ensures code == 13 && InRange(st.index) ==> r.commits == st.commits + [st.index] && r.error == st.error
    ensures code == 13 && !InRange(st.index) ==> r.commits == st.commits && r.error
  {
    if code == 13 then
      if !InRange(st.index) then st.(error := true)
      else st.(commits := st.commits + [st.index])
    else st
  }

  /** The keydown listener: ArrowDown (40) and ArrowUp (38) press the step
      button one below or above the prop `pokemonIndex`; other keys do
      nothing. */
  function ArrowKey(st: Nav, keyCode: int): (r: Nav)
    ensures keyCode == 40 ==> r == Press(st, st.pokemonIndex - 1)
    ensures keyCode == 38 ==> r == Press(st, st.pokemonIndex + 1)
    ensures keyCode != 40 && keyCode != 38 ==> r == st
  {
    var afterDown := if keyCode == 40 then Press(st, st.pokemonIndex - 1) else st;
    if keyCode == 38 then Press(afterDown, st.pokemonIndex + 1) else afterDown
  }

  /** Stepping by arrow key depends on the prop, never on the locally
      edited index: two navigators that differ only in `index` commit the
      same values and end with the same error flag. */
  lemma ArrowKeyIgnoresEditedIndex(st: Nav, edited: int, keyCode: int)
    ensures ArrowKey(st.(index := edited), keyCode).commits == ArrowKey(st, keyCode).commits
    ensures ArrowKey(st.(index := edited), keyCode).error == ArrowKey(st, keyCode).error
  {
  }

  /** The events a mounted navigator receives. */
  datatype Event =
    | ButtonPress(n: int)          // handleButton called directly
    | TextInput(n: int)            // the text field now parses to n
    | KeyPress(keyCode: int, which: int)
    | KeyDown(keyCode: int)
    | DownClick                    // the "Move down" button
    | UpClick                      // the "Move up" button
    | NewPokemonIndex(p: int)      // the parent passes a new prop
    | ErrorTimeout                 // the 500 ms timer fires

  /** The effect of one event. */
  function Step(st: Nav, e: Event): (r: Nav)
    ensures r.commits == st.commits || (r.commits == st.commits + [r.index] && InRange(r.index))
  {
    match e
    case ButtonPress(n) => Press(st, n)
    case TextInput(n) => Edit(st, n)
    case KeyPress(keyCode, which) => Enter(st, PressedCode(keyCode, which))
    case KeyDown(keyCode) => ArrowKey(st, keyCode)
    case DownClick => Press(st, st.pokemonIndex - 1)
    case UpClick => Press(st, st.pokemonIndex + 1)
    case NewPokemonIndex(p) => st.(pokemonIndex := p)
    case ErrorTimeout => st.(error := false)
  }

  /** The effect of a sequence of events, first to last. */
  function Run(st: Nav, events: seq<Event>): Nav
    decreases |events|
  {
    if events == [] then st else Run(Step(st, events[0]), events[1..])
  }

  /** Whatever the events, every value ever committed is in range, and
      earlier commits are never taken back. */
  lemma {:induction false} RunCommitsInRange(st: Nav, events: seq<Event>)
    requires AllInRange(st.commits)
    ensures AllInRange(Run(st, events).commits)
    ensures st.commits <= Run(st, events).commits
    decreases |events|
  {
    if events != [] {
      var next := Step(st, events[0]);
      assert AllInRange(next.commits);
      RunCommitsInRange(next, events[1..]);
    }
  }

  /** From mounting on, with any starting prop, only values in 1..807 ever
      reach the parent. */
  lemma {:induction false} CommittedFromMountInRange(pokemonIndex: int, events: seq<Event>)
    ensures AllInRange(Run(Initial(pokemonIndex), events).commits)
  {
    RunCommitsInRange(Initial(pokemonIndex), events);
  }

  /** The navigator component. `commits` records the arguments of every
      call to `changePokemonIndex`. */
  class Navigator {
    var pokemonIndex: int
    var index: int
    var error: bool
    ghost var commits: seq<int>

    /** The state as a value. */
    ghost function Snapshot(): Nav
      reads this
    {
      Nav(pokemonIndex, index, error, commits)
    }

    /** Every committed value is in range. */
    ghost predicate Valid()
      reads this
    {
      AllInRange(commits)
    }

    constructor (pokemonIndex: int)
      ensures Snapshot() == Initial(pokemonIndex)
      ensures Valid()
    {
      this.pokemonIndex := pokemonIndex;
      index := pokemonIndex;
      error := false;
      commits := [];
    }

    /** `checkError`: true exactly for a value outside 1..807, in which
        case the error flag is raised. */
    method CheckError(n: int) returns (isError: bool)
      modifies this`error
      ensures isError <==> n < 1 || n > NumberOfPokemons
      ensures error == (old(error) || isError)
    {
      if n < 1 || n > NumberOfPokemons {
        error := true;
        return true;
      }
      return false;
    }

    /** `handleButton`. */
    method HandleButton(newIndex: int)
      requires Valid()
      modifies this`index, this`error, this`commits
      ensures Snapshot() == Press(old(Snapshot()), newIndex)
      ensures Valid()
    {
      var isError := CheckError(newIndex);
      if isError {
        return;
      }
      index := newIndex;
      commits := commits + [newIndex];
    }

    /** `handleInputChange`, with the text already parsed to an integer. */
    method HandleInputChange(newIndex: int)
      modifies this`index
      ensures Snapshot() == Edit(old(Snapshot()), newIndex)
    {
      index := newIndex;
    }

    /** `handleKeyPress` on the text field. */
    method HandleKeyPress(keyCode: int, which: int)
      requires Valid()
      modifies this`error, this`commits
      ensures Snapshot() == Enter(old(Snapshot()), PressedCode(keyCode, which))
      ensures Valid()
    {
      var code := if keyCode != 0 then keyCode else which;
      if code == 13 {
        var isError := CheckError(index);
        if isError {
          return;
        }
        commits := commits + [index];
      }
    }

    /** The global keydown listener. */
    method OnKeyDown(keyCode: int)
      requires Valid()
      modifies this`index, this`error, this`commits
      ensures Snapshot() == ArrowKey(old(Snapshot()), keyCode)
      ensures Valid()
    {
      if keyCode == 40 {
        HandleButton(pokemonIndex - 1);
      }
      if keyCode == 38 {
        HandleButton(pokemonIndex + 1);
      }
    }

    /** The "Move down" button. */
    method ClickDown()
      requires Valid()
      modifies this`index, this`error, this`commits
      ensures Snapshot() == Press(old(Snapshot()), old(pokemonIndex) - 1)
      ensures Valid()
    {
      HandleButton(pokemonIndex - 1);
    }

    /** The "Move up" button. */
    method ClickUp()
      requires Valid()
      modifies this`index, this`error, this`commits
      ensures Snapshot() == Press(old(Snapshot()), old(pokemonIndex) + 1)
      ensures Valid()
    {
      HandleButton(pokemonIndex + 1);
    }

    /** A new `pokemonIndex` prop from the parent; the local index keeps
        its value, since the state hook reads the prop only on mount. */
    method SetPokemonIndex(p: int)
      modifies this`pokemonIndex
      ensures Snapshot() == old(Snapshot()).(pokemonIndex := p)
    {
      pokemonIndex := p;
    }

    /** The timer that follows a failed check: the error flag drops. */
    method ClearError()
      modifies this`error
      ensures Snapshot() == old(Snapshot()).(error := false)
    {
      error := false;
    }

    /** Any event, dispatched to its handler: the navigator follows `Step`
        and so, by `RunCommitsInRange`, keeps every commit in range. */
    method Handle(e: Event)
      requires Valid()
      modifies this
      ensures Snapshot() == Step(old(Snapshot()), e)
      ensures Valid()
    {
      match e
      case ButtonPress(n) => HandleButton(n);
      case TextInput(n) => HandleInputChange(n);
      case KeyPress(keyCode, which) => HandleKeyPress(keyCode, which);
      case KeyDown(keyCode) => OnKeyDown(keyCode);
      case DownClick => ClickDown();
      case UpClick => ClickUp();
      case NewPokemonIndex(p) => SetPokemonIndex(p);
      case ErrorTimeout => ClearError();
    }
  }
}
