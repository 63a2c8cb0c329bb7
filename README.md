# Mars rover navigation, modelled in Dafny

This project models the navigation core of the Mars rover program (`classes.py`). A `Plateau`
has fixed inclusive bounds `0..xdim` by `0..ydim` and keeps a list of the rovers registered
on it. A `Rover` has a position `(x, y)` and a heading that is one of N, E, S, W. It can rotate
left or right, move one cell forward, and explore a string of `L`, `R` and `M` commands. Moves
are refused at the plateau edge and onto another rover's cell. A refused move leaves the rover
where it was.

Modules:

- `Results` (`results.dfy`): the error kinds and the `Option`, `Result` and `Outcome` wrappers.
  A failed Python assertion becomes an `Err`/`Fail` value that carries the kind of error.
- `Headings` (`headings.dfy`): the heading type and the class tables `orient_dct` (`Delta`)
  and `orient_lst` (`Order`, `IndexOf`). It also holds left and right rotation, and the
  upper-casing that heading and command letters go through.
- `Navigation` (`navigation.dfy`): the value model the classes are proved against.
  - `Stepped` is one `move_forward`, `Act` one command, `Run` the inner `action` recursion,
    and `Explored` all of `explore`.
  - `SpawnCheck` is the check sequence of `Rover(...)`.
  - `WellPlaced` is the registry invariant: every rover is in bounds and no two share a cell.
  - The module also holds lemmas about all of these.
- `Rovers` (`rovers.dfy`): the classes. `Plateau` has the field `rovers: seq<Rover>`.
  `Rover` has the fields `x`, `y` and `head`, which its methods update in place.
  - `Plateau.Valid()` is the registry invariant over the rovers' live positions. Every
    method that changes state keeps it.
  - `Rotate`, `MoveForward` and `Explore` are proved equal to `Rotated`, `Stepped` and
    `Explored` applied to the old state.
- `Scenarios` (`scenarios.dfy`): the doctest scenarios of `tests.py`, stated on the value model.

The model keeps these details of the code:

- Spawning checks the bounds first, then the heading (`classes.py:82-85`), and only then the
  cells already registered (`classes.py:59-61`).
- `explore` upper-cases the string only to validate it (`classes.py:137`). Dispatch compares
  the original character with `'M'` (`classes.py:143`). So a lower-case `m` passes validation,
  goes to `rotate`, and is a no-op there (`classes.py:125-128`, `Navigation.LowercaseMIsNoOp`).
  Lower-case `l` and `r` rotate.
- A spawn that fails in `add_rover` has already built the Rover object. The object is simply
  never registered or returned. `Rover.Spawn` returns `Err` and leaves the registry unchanged.

## Model

| member | source | states |
|---|---|---|
| Headings.IndexOf | classes.py:74 | `orient_lst.index(h)` is the position of `h` in the order N, E, S, W |
| Headings.ParseHeading | classes.py:84-91 | a heading string is accepted iff it is one character that upper-cases to N, E, S or W; the stored heading is that upper-case letter |
| Headings.ParseLetter | classes.py:84-91 | each heading letter, upper or lower case, is accepted as that heading |
| Headings.LeftRightAreIndexSteps | classes.py:124-128 | L gives `orient_lst[(i - 1) % 4]` and R gives `orient_lst[(i + 1) % 4]` for the current index i |
| Headings.LeftRightInverse | classes.py:121-128 | L then R, and R then L, restore the heading |
| Headings.FourTurnsIdentity | classes.py:121-128 | four turns in one direction restore the heading; two left turns equal two right turns and reverse the unit step |
| Headings.DeltaIsUnit | classes.py:73 | each heading's step in `orient_dct` is non-zero and of Manhattan length 1 |
| Headings.TurnsRotateStep | classes.py:73-74 | turning right rotates the unit step a quarter turn clockwise, turning left counter-clockwise |
| Headings.Delta | classes.py:73 | the unit step of each heading: N (0, 1), E (1, 0), S (0, -1), W (-1, 0) |
| Headings.Left | classes.py:124-126 | the heading a quarter turn counter-clockwise: the previous entry of N, E, S, W, cyclically |
| Headings.Right | classes.py:124-128 | the heading a quarter turn clockwise: the next entry of N, E, S, W, cyclically |
| Headings.Upper | classes.py:84 | the upper case of one character, as `.upper()` gives it for the letters the rover reads (also used at classes.py:125 and 137) |
| Navigation.Rotated | classes.py:121-128 | the heading after `rotate(direction)`: Left for a direction that upper-cases to "L", Right for "R", unchanged otherwise |
| Navigation.Turned | classes.py:125-128 | `rotate` on a one-character direction |
| Navigation.Stepped | classes.py:103-113 | one `move_forward`: OutOfBounds if the cell ahead is outside the bounds, else PositionOccupied if another rover holds it, else the pose one step ahead with the same heading |
| Navigation.Act | classes.py:143-146 | one command of `action`: a character other than 'M' rotates and passes, 'M' moves; a refused move keeps the pose and reports the error |
| Navigation.Run | classes.py:140-147 | `action`: the commands applied left to right, stopping at the first failure with the pose reached there |
| Navigation.Explored | classes.py:137-149 | `explore`: InvalidCommand with the pose unchanged if any character is not L, R or M in either case, otherwise the run |
| Navigation.SpawnCheck | classes.py:82-94 | the checks of `Rover(...)`: OutOfBounds, then InvalidHeading, then PositionOccupied (from `add_rover`, classes.py:59-61), else the pose with the given cell and the upper-cased heading |
| Navigation.WellPlaced | classes.py:59-63 | the registry invariant: every registered rover within the bounds, no two on one cell |
| Navigation.RotationKeepsCell | classes.py:121-128 | a command other than 'M' never fails and never moves the rover; L/R in either case turn it, anything else leaves it unchanged |
| Navigation.LowercaseMIsNoOp | classes.py:137-147 | a lower-case 'm' passes validation but leaves the rest of the run as if it were absent |
| Navigation.SteppedKeepsPlacement | classes.py:103-113 | a successful move adds exactly the heading's unit step, keeps the heading, and ends in bounds and off every other rover |
| Navigation.SteppedRefusal | classes.py:105-110 | a move is refused iff the target is out of bounds or held by another rover; out of bounds is reported first |
| Navigation.EastEdgeBlocks | classes.py:105-107 | a rover on the east edge facing east cannot move |
| Navigation.RunAppend | classes.py:140-147 | commands run strictly left to right: a + b is a, then b from where a left the rover, unless a failed |
| Navigation.RunStopsAtFailedMove | classes.py:140-147 | a failing run stopped at an 'M' whose move was refused; everything before it succeeded and is kept, and the refused move has no effect |
| Navigation.RunFailsOnlyOnMoves | classes.py:140-147 | a run fails only with OutOfBounds or PositionOccupied; a run without 'M' succeeds and keeps the rover on its cell |
| Navigation.RunKeepsPlacement | classes.py:100-113 | a rover in bounds and off the other rovers stays so after any run, complete or stopped |
| Navigation.ExploredRejectsOrNoOp | classes.py:137-149 | an empty string changes nothing; a string with any character outside L, R, M (any case) is refused before anything runs; otherwise explore is the run |
| Navigation.RegisterKeepsWellPlaced | classes.py:59-63 | appending an in-bounds rover on a free cell keeps the registry invariant |
| Navigation.ReplaceKeepsWellPlaced | classes.py:105-113 | moving one rover to an in-bounds cell that no other rover holds keeps the registry invariant |
| Navigation.SpawnKeepsWellPlaced | classes.py:82-94 | a successful spawn has exactly the given position and the upper-cased heading, and registering it keeps the invariant |
| Navigation.ExploreKeepsWellPlaced | classes.py:133-149 | an explore by any registered rover keeps the registry invariant |
| Rovers.Plateau.constructor | classes.py:39-41 | a new plateau has the given bounds and no rovers, and satisfies the invariant |
| Rovers.Plateau.Create | classes.py:31-42 | a plateau is refused with InvalidDimension iff a dimension is negative; otherwise it is new, empty and valid |
| Rovers.Plateau.AddRover | classes.py:56-63 | refuses with PositionOccupied iff a registered rover holds the cell, otherwise appends the rover; the invariant holds after either |
| Rovers.Rover.Place | classes.py:89-93 | a placed rover has exactly the given position, heading, plateau and id |
| Rovers.Rover.Spawn | classes.py:76-94 | the outcome and error are those of SpawnCheck (bounds, heading, occupancy); on failure the registry is unchanged, on success the new rover is appended; the invariant holds after either |
| Rovers.Rover.Rotate | classes.py:121-128 | only the heading changes, to Rotated of the old heading; every rover's position is unchanged |
| Rovers.Rover.MoveForward | classes.py:100-113 | the outcome and new state are those of Stepped on the old state and the other rovers; a refused move changes nothing; the invariant is kept |
| Rovers.Rover.Explore | classes.py:133-149 | the outcome and final state are those of Explored on the old state and the other rovers; the invariant is kept |
| Scenarios.TestCase1Rover1 | tests.py:21-25 | on Plateau(5, 5), (1, 2, N) exploring "LMLMLMLMM" ends at (1, 3, N) |
| Scenarios.TestCase1Rover2 | tests.py:26-29 | with the first rover at (1, 3), (3, 3, E) exploring "MMRMMRMRRM" ends at (5, 1, E) |
| Scenarios.TestCase2Rover1 | tests.py:35-39 | on Plateau(8, 3), (0, 0, E) exploring "MMMLLMMRM" ends at (1, 1, N) |
| Scenarios.TestCase2Rover2 | tests.py:40-43 | with the first rover at (1, 1), (3, 0, S) exploring "RRRMLMMMR" ends at (4, 3, E) |
| Scenarios.TestCase2Rover3 | tests.py:44-47 | with rovers at (1, 1) and (4, 3), (8, 3, W) exploring "MRL" ends at (7, 3, W) |
| Scenarios.TestCase3 | tests.py:53-57 | spawning at (3, 5) on Plateau(3, 4) is refused with OutOfBounds |
| Scenarios.TestCase4 | tests.py:68-75 | (3, 2, N) exploring "MMM" on Plateau(3, 4) stops at (3, 4, N) with OutOfBounds |
| Scenarios.TestCase5 | tests.py:83-97 | spawning onto (3, 2) is refused with PositionOccupied; (1, 2, N) exploring "RMM" stops at (2, 2, E) with PositionOccupied |

## Left out

- `main.py` is left out: it is terminal input, printing and the program loop.
- The grid picture is left out because it never affects position, heading or occupancy. This
  covers `build_grid`, `Plateau.__repr__`, `coords_idx`, the rover and trail glyphs written in
  `__init__`, `move_forward` and `rotate`, and `Rover.__repr__`/`__str__`.
- The `isinstance` checks on coordinates, dimensions and the plateau argument are left out.
  Dafny's types already guarantee them.
- Python exceptions are modelled as result values. A failure deep in `explore` is returned as
  `Fail(error)`, together with the state the rover is left in, instead of unwinding the stack.
- `Upper` covers ASCII lower case and U+017F (long s, which Python upper-cases to 'S').
  Every other character is left unchanged. For the letters N, E, S, W, L, R and M this
  agrees with Python's `str.upper`. Other Unicode case mappings are not modelled.
- Rovers.Rover.MoveForward: its contract is stated over the other rovers only. The body scans
  all registered rovers, the mover included, as the source does, and proves that the mover's
  own entry never matches, because the unit step is never zero (`Headings.DeltaIsUnit`).
- Rovers.Rover.MoveForward: requires that the rover is registered on its plateau and that the
  invariant holds. Every rover a caller can reach satisfies both, because a rover whose spawn
  failed is never returned.
- Rovers.Rover.Explore: has the same precondition, for the same reason.
- Rovers.Plateau.AddRover: requires the rover to be within the bounds. Its only caller, the
  rover constructor, has already checked this, and the invariant needs it.
- The default value `""` of the rover id is not modelled. `Rover.Spawn` always takes an id.
- Aliasing between `Rover` objects is modelled only through the registry: `Rover.Surroundings`
  holds the cells of the registered rovers other than this one.
- Rovers.Rover.Explore: the inner `action` of the source recurses once per command. A long
  enough valid string (about a thousand characters) exceeds Python's recursion limit and
  raises `RecursionError` after the earlier commands have already moved the rover. This
  failure is not modelled: the model runs the whole string.
