/** The rover's state transitions as values: what `rotate`, `move_forward` and `explore` do to a
    rover's position and heading, given the plateau's bounds and the cells the other rovers hold,
    and the plateau's registry invariant (every rover in bounds, no two on one cell). The
    classes in module Rovers are proved against these functions. */
module Navigation {
  import opened Results
  import opened Headings

  /** A grid point (x, y). */
  type Cell = (int, int)

  /** What `repr(rover)` shows: position and heading. */
  datatype Pose = Pose(x: int, y: int, head: Heading) {
    function Cell(): Cell { (x, y) }
  }

  /** What a moving rover is checked against: the inclusive bounds 0..xdim by 0..ydim, and the
      cells held by the other rovers registered on the plateau. */
  datatype Terrain = Terrain(xdim: int, ydim: int, others: set<Cell>)

  predicate InBounds(xdim: int, ydim: int, c: Cell) {
    0 <= c.0 <= xdim && 0 <= c.1 <= ydim
  }

  /** The cell one step ahead: position plus `orient_dct[head]`. */
  function Ahead(p: Pose): Cell {
    (p.x + Delta(p.head).0, p.y + Delta(p.head).1)
  }

  /** `rotate(direction)`: the direction string is upper-cased and compared with "L" and "R";
      anything else leaves the heading as it is. Only a one-character string can upper-case to
      "L" or "R". */
  function Rotated(h: Heading, direction: string): Heading {
    if |direction| == 1 then Turned(h, direction[0]) else h
  }

  /** `rotate` on a one-character direction. */
  function Turned(h: Heading, c: char): Heading {
    match Upper(c)
    case 'L' => Left(h)
    case 'R' => Right(h)
    case _ => h
  }

  /** `move_forward`: the bounds check comes first, then the check against the other rovers;
      on success only the position changes. */
  function Stepped(p: Pose, t: Terrain): Result<Pose> {
    var (x, y) := Ahead(p);
    if !InBounds(t.xdim, t.ydim, (x, y)) then Err(OutOfBounds)
    else if (x, y) in t.others then Err(PositionOccupied)
    else Ok(Pose(x, y, p.head))
  }

  /** `Rover.explore` accepts a string when every character upper-cases to L, R or M. */
  predicate IsCommand(c: char) {
    Upper(c) in {'L', 'R', 'M'}
  }

  predicate ValidCommands(cmds: string) {
    forall i :: 0 <= i < |cmds| ==> IsCommand(cmds[i])
  }

  /** One step of the inner `action`: a character other than an upper-case 'M' goes to `rotate`
      (so a lower-case 'm' is dispatched to `rotate`, where it matches neither L nor R), an 'M'
      to `move_forward`. A failed move leaves the pose as it was. */
  function Act(p: Pose, c: char, t: Terrain): (Pose, Outcome) {
    if c != 'M' then (Pose(p.x, p.y, Turned(p.head, c)), Pass)
    else
      var r := Stepped(p, t);
      if r.Ok? then (r.value, Pass) else (p, Fail(r.error))
  }

  /** The inner `action` of `explore`: apply the commands left to right, stopping at the first
      one that fails; the pose returned is the pose at that point. */
  function Run(p: Pose, cmds: string, t: Terrain): (Pose, Outcome)
    decreases |cmds|
  {
    if cmds == [] then (p, Pass)
    else
      var (q, o) := Act(p, cmds[0], t);
      if o.Fail? then (q, o) else Run(q, cmds[1..], t)
  }

  /** `explore`: the whole string is validated before anything is executed. */
  function Explored(p: Pose, cmds: string, t: Terrain): (Pose, Outcome) {
    if !ValidCommands(cmds) then (p, Fail(InvalidCommand)) else Run(p, cmds, t)
  }

  // ---------------------------------------------------------------------------------------
  // The registry invariant

  /** The plateau's invariant over the cells of its registered rovers, in registration order:
      each lies within the bounds and no two coincide. */
  predicate WellPlaced(xdim: int, ydim: int, cells: seq<Cell>) {
    && (forall k :: 0 <= k < |cells| ==> InBounds(xdim, ydim, cells[k]))
    && (forall j, k :: 0 <= j < k < |cells| ==> cells[j] != cells[k])
  }

  /** The cells of every registered rover but the one at index i. */
  function OthersAt(cells: seq<Cell>, i: int): set<Cell> {
    set k | 0 <= k < |cells| && k != i :: cells[k]
  }

  /** The checks a new rover goes through, in the order the constructor and `add_rover` make
      them: bounds, then heading, then the cells already registered. */
  function SpawnCheck(xdim: int, ydim: int, cells: seq<Cell>, x: int, y: int, head: string): Result<Pose> {
    if !InBounds(xdim, ydim, (x, y)) then Err(OutOfBounds)
    else if ParseHeading(head).None? then Err(InvalidHeading)
    else if (x, y) in cells then Err(PositionOccupied)
    else Ok(Pose(x, y, ParseHeading(head).value))
  }

  // ---------------------------------------------------------------------------------------
  // Properties of a single command

  /** Rotation never moves the rover, and `Act` on anything but 'M' never fails. */
  lemma RotationKeepsCell(p: Pose, c: char, t: Terrain)
    requires c != 'M'
    ensures Act(p, c, t).1 == Pass && Act(p, c, t).0.Cell() == p.Cell()
    ensures Upper(c) == 'L' ==> Act(p, c, t).0.head == Left(p.head)
    ensures Upper(c) == 'R' ==> Act(p, c, t).0.head == Right(p.head)
    ensures Upper(c) !in {'L', 'R'} ==> Act(p, c, t).0 == p
  {
  }

  /** A lower-case 'm' passes validation but is a rotation that changes nothing. */
  lemma LowercaseMIsNoOp(p: Pose, rest: string, t: Terrain)
    ensures IsCommand('m')
    ensures Run(p, ['m'] + rest, t) == Run(p, rest, t)
  {
    assert (['m'] + rest)[1..] == rest;
  }

  /** A successful move goes exactly one cell along the heading's unit vector and keeps the
      rover within the bounds and off every other rover's cell. */
  lemma SteppedKeepsPlacement(p: Pose, t: Terrain)
    requires Stepped(p, t).Ok?
    ensures var q := Stepped(p, t).value;
      && q.head == p.head
      && q.x - p.x == Delta(p.head).0 && q.y - p.y == Delta(p.head).1
      && InBounds(t.xdim, t.ydim, q.Cell()) && q.Cell() !in t.others
  {
  }

  /** A refused move reports the first check that fails: the bounds, then the other rovers. */
  lemma SteppedRefusal(p: Pose, t: Terrain)
    ensures !InBounds(t.xdim, t.ydim, Ahead(p)) ==> Stepped(p, t) == Err(OutOfBounds)
    ensures InBounds(t.xdim, t.ydim, Ahead(p)) && Ahead(p) in t.others ==> Stepped(p, t) == Err(PositionOccupied)
    ensures Stepped(p, t).Err? <==> !InBounds(t.xdim, t.ydim, Ahead(p)) || Ahead(p) in t.others
  {
  }

  /** A rover on the east edge facing east cannot move. */
  lemma EastEdgeBlocks(p: Pose, t: Terrain)
    requires p.head == E && p.x == t.xdim
    ensures Stepped(p, t) == Err(OutOfBounds)
  {
  }

  // ---------------------------------------------------------------------------------------
  // Properties of a command string

  /** Commands run strictly left to right: running a + b is running a, then, unless a failed,
      running b from where a left the rover. */
  lemma {:induction false} RunAppend(p: Pose, a: string, b: string, t: Terrain)
    ensures Run(p, a + b, t) ==
      (var (q, o) := Run(p, a, t); if o.Fail? then (q, o) else Run(q, b, t))
    decreases |a|
  {
    if a == [] {
      assert a + b == b;
    } else {
      assert (a + b)[0] == a[0];
      assert (a + b)[1..] == a[1..] + b;
      var (q, o) := Act(p, a[0], t);
      if o.Pass? {
        RunAppend(q, a[1..], b, t);
      }
    }
  }

  /** A run that fails stopped at a move command: the commands before it all succeeded, that
      move was refused for a reason `Stepped` gives, and the pose reported is the one reached
      just before it (rotations and moves before it are kept, the move itself has no effect). */
  lemma {:induction false} RunStopsAtFailedMove(p: Pose, cmds: string, t: Terrain)
    requires Run(p, cmds, t).1.Fail?
    ensures exists i :: (0 <= i < |cmds| && cmds[i] == 'M' &&
                         var (q, o) := Run(p, cmds[..i], t);
                         o == Pass && Stepped(q, t).Err? && Run(p, cmds, t) == (q, Fail(Stepped(q, t).error)))
    decreases |cmds|
  {
    var (q, o) := Act(p, cmds[0], t);
    assert cmds[..0] == [];
    if o.Fail? {
      assert cmds[0] == 'M';
    } else {
      RunStopsAtFailedMove(q, cmds[1..], t);
      var i :| 0 <= i < |cmds[1..]| && cmds[1..][i] == 'M' &&
        var (q', o') := Run(q, cmds[1..][..i], t);
        o' == Pass && Stepped(q', t).Err? && Run(q, cmds[1..], t) == (q', Fail(Stepped(q', t).error));
      assert cmds[..i + 1] == [cmds[0]] + cmds[1..][..i];
      assert cmds[..i + 1][0] == cmds[0] && cmds[..i + 1][1..] == cmds[1..][..i];
      assert cmds[i + 1] == 'M';
    }
  }

  /** The only failures of a run are refused moves. */
  lemma {:induction false} RunFailsOnlyOnMoves(p: Pose, cmds: string, t: Terrain)
    ensures Run(p, cmds, t).1 in {Pass, Fail(OutOfBounds), Fail(PositionOccupied)}
    ensures 'M' !in cmds ==> Run(p, cmds, t).1 == Pass && Run(p, cmds, t).0.Cell() == p.Cell()
    decreases |cmds|
  {
    if cmds != [] {
      var (q, o) := Act(p, cmds[0], t);
      if o.Pass? {
        RunFailsOnlyOnMoves(q, cmds[1..], t);
        assert 'M' !in cmds ==> 'M' !in cmds[1..] && q.Cell() == p.Cell();
      }
    }
  }

  /** A rover that starts within the bounds and off the other rovers' cells is still there after
      any run, whether it completes or stops early. */
  lemma {:induction false} RunKeepsPlacement(p: Pose, cmds: string, t: Terrain)
    requires InBounds(t.xdim, t.ydim, p.Cell()) && p.Cell() !in t.others
    ensures var q := Run(p, cmds, t).0;
      InBounds(t.xdim, t.ydim, q.Cell()) && q.Cell() !in t.others
    decreases |cmds|
  {
    if cmds != [] {
      var (q, o) := Act(p, cmds[0], t);
      if o.Pass? {
        RunKeepsPlacement(q, cmds[1..], t);
      }
    }
  }

  /** An empty command string, or one with a character outside L, R, M in either case,
      changes nothing; the latter is refused as a whole before anything runs. */
  lemma ExploredRejectsOrNoOp(p: Pose, cmds: string, t: Terrain)
    ensures cmds == [] ==> Explored(p, cmds, t) == (p, Pass)
    ensures (exists i :: 0 <= i < |cmds| && !IsCommand(cmds[i])) ==>
      Explored(p, cmds, t) == (p, Fail(InvalidCommand))
    ensures ValidCommands(cmds) ==> Explored(p, cmds, t) == Run(p, cmds, t)
  {
  }

  // ---------------------------------------------------------------------------------------
  // The registry invariant is kept

  /** Registering a new rover on a free cell within the bounds keeps the invariant. */
  lemma RegisterKeepsWellPlaced(xdim: int, ydim: int, cells: seq<Cell>, c: Cell)
    requires WellPlaced(xdim, ydim, cells)
    requires InBounds(xdim, ydim, c) && c !in cells
    ensures WellPlaced(xdim, ydim, cells + [c])
  {
  }

  /** Moving the rover at index i to a cell within the bounds that no other rover holds keeps
      the invariant. */
  lemma ReplaceKeepsWellPlaced(xdim: int, ydim: int, cells: seq<Cell>, i: int, c: Cell)
    requires WellPlaced(xdim, ydim, cells) && 0 <= i < |cells|
    requires InBounds(xdim, ydim, c) && c !in OthersAt(cells, i)
    ensures WellPlaced(xdim, ydim, cells[i := c])
  {
    var cs := cells[i := c];
    forall j, k | 0 <= j < k < |cs|
      ensures cs[j] != cs[k]
    {
      if j == i {
        assert cs[k] == cells[k] && cells[k] in OthersAt(cells, i);
      } else if k == i {
        assert cs[j] == cells[j] && cells[j] in OthersAt(cells, i);
      }
    }
  }

  /** A successful spawn puts the rover exactly where asserted, with the heading upper-cased,
      and registering it keeps the invariant. */
  lemma SpawnKeepsWellPlaced(xdim: int, ydim: int, cells: seq<Cell>, x: int, y: int, head: string)
    requires WellPlaced(xdim, ydim, cells)
    requires SpawnCheck(xdim, ydim, cells, x, y, head).Ok?
    ensures var p := SpawnCheck(xdim, ydim, cells, x, y, head).value;
      && p.Cell() == (x, y) && Letter(p.head) == Upper(head[0])
      && WellPlaced(xdim, ydim, cells + [p.Cell()])
  {
    RegisterKeepsWellPlaced(xdim, ydim, cells, (x, y));
  }

  /** `explore` by the rover at index i keeps the invariant of the whole registry. */
  lemma ExploreKeepsWellPlaced(xdim: int, ydim: int, cells: seq<Cell>, i: int, p: Pose, cmds: string)
    requires WellPlaced(xdim, ydim, cells) && 0 <= i < |cells| && cells[i] == p.Cell()
    ensures var q := Explored(p, cmds, Terrain(xdim, ydim, OthersAt(cells, i))).0;
      WellPlaced(xdim, ydim, cells[i := q.Cell()])
  {
    var t := Terrain(xdim, ydim, OthersAt(cells, i));
    if ValidCommands(cmds) {
      RunKeepsPlacement(p, cmds, t);
    }
    ReplaceKeepsWellPlaced(xdim, ydim, cells, i, Explored(p, cmds, t).0.Cell());
  }
}
