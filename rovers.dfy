/** The two classes of the program: a `Plateau` with fixed bounds and a registry of the rovers on
    it, and a `Rover` whose position and heading change in place. Every method is specified
    against the value model in module Navigation. */
module Rovers {
  import opened Results
  import opened Headings
  import opened Navigation

  class Plateau {
    const xdim: nat
    const ydim: nat
    /** `self.rovers`: the registered rovers, in the order they were added. */
    var rovers: seq<Rover>

    /** The cells of the registered rovers, in registration order. */
    ghost function Cells(): seq<Cell>
      reads this, rovers
    {
      seq(|rovers|, k requires 0 <= k < |rovers| reads this, rovers => rovers[k].Cell())
    }

    /** The registry invariant: every rover within the bounds, no two on one cell. */
    ghost predicate Valid()
      reads this, rovers
    {
      WellPlaced(xdim, ydim, Cells())
    }

    /** The cells held by the registered rovers other than `me`. */
    ghost function OthersOf(me: Rover): set<Cell>
      reads this, rovers
    {
      set k | 0 <= k < |rovers| && rovers[k] != me :: rovers[k].Cell()
    }

    constructor (xdim: nat, ydim: nat)
      ensures this.xdim == xdim && this.ydim == ydim && rovers == []
      ensures Valid()
    {
      this.xdim := xdim;
      this.ydim := ydim;
      rovers := [];
    }

    /** `Plateau(xdim, ydim)`: both dimensions must be at least 0. */
    static method Create(xdim: int, ydim: int) returns (r: Result<Plateau>)
      ensures r.Err? <==> xdim < 0 || ydim < 0
      ensures r.Err? ==> r.error == InvalidDimension
      ensures r.Ok? ==> && fresh(r.value) && r.value.Valid()
                        && r.value.xdim == xdim && r.value.ydim == ydim && r.value.rovers == []
    {
      if !(xdim >= 0 && ydim >= 0) {
        return Err(InvalidDimension);
      }
      var p := new Plateau(xdim, ydim);
      return Ok(p);
    }

    /** `add_rover`: refuse a rover whose cell a registered rover holds, otherwise append it.
        The caller has already checked the bounds. */
    method AddRover(rover: Rover) returns (o: Outcome)
      requires Valid() && InBounds(xdim, ydim, rover.Cell())
      modifies this`rovers
      ensures Valid()
      ensures o == if rover.Cell() in old(Cells()) then Fail(PositionOccupied) else Pass
      ensures rovers == if o.Pass? then old(rovers) + [rover] else old(rovers)
    {
      var i := 0;
      while i < |rovers|
        invariant 0 <= i <= |rovers|
        invariant forall k :: 0 <= k < i ==> rovers[k].Cell() != rover.Cell()
      {
        if rovers[i].Cell() == rover.Cell() {
          assert Cells()[i] == rover.Cell();
          return Fail(PositionOccupied);
        }
        i := i + 1;
      }
      ghost var cells := Cells();
      RegisterKeepsWellPlaced(xdim, ydim, cells, rover.Cell());
      rovers := rovers + [rover];
      assert Cells() == cells + [rover.Cell()];
      return Pass;
    }
  }

  class Rover {
    var x: int
    var y: int
    var head: Heading
    const id: string
    const plat: Plateau

    function Cell(): Cell
      reads this
    {
      (x, y)
    }

    function State(): Pose
      reads this
    {
      Pose(x, y, head)
    }

    /** The field assignments of `Rover.__init__`, once its checks have passed. */
    constructor Place(x: int, y: int, head: Heading, plat: Plateau, id: string)
      ensures State() == Pose(x, y, head) && this.plat == plat && this.id == id
    {
      this.x, this.y, this.head := x, y, head;
      this.plat, this.id := plat, id;
    }

    /** The bounds and other rovers this rover is checked against when it moves. */
    ghost function Surroundings(): Terrain
      reads this, plat, plat.rovers
    {
      Terrain(plat.xdim, plat.ydim, plat.OthersOf(this))
    }

    /** `Rover(x, y, head, plat, id)`: checks the bounds, then the heading, then (in `add_rover`)
        the cells already registered; on success the new rover is appended to the registry. */
    static method Spawn(x: int, y: int, head: string, plat: Plateau, id: string) returns (r: Result<Rover>)
      requires plat.Valid()
      modifies plat`rovers
      ensures plat.Valid()
      ensures var c := SpawnCheck(plat.xdim, plat.ydim, old(plat.Cells()), x, y, head);
        && (r.Err? <==> c.Err?)
        && (r.Err? ==> r.error == c.error && plat.rovers == old(plat.rovers))
        && (r.Ok? ==> && fresh(r.value) && r.value.State() == c.value
                      && r.value.plat == plat && r.value.id == id
                      && plat.rovers == old(plat.rovers) + [r.value])
    {
      if !(0 <= x <= plat.xdim && 0 <= y <= plat.ydim) {
        return Err(OutOfBounds);
      }
      var h := ParseHeading(head);
      if h.None? {
        return Err(InvalidHeading);
      }
      var rover := new Rover.Place(x, y, h.value, plat, id);
      var o := plat.AddRover(rover);
      if o.Fail? {
        return Err(o.error);
      }
      return Ok(rover);
    }

    /** `rotate(direction)`: only the heading changes. */
    method Rotate(direction: string)
      modifies this`head
      ensures State() == old(State()).(head := Rotated(old(head), direction))
      ensures plat.Cells() == old(plat.Cells())
      ensures plat.OthersOf(this) == old(plat.OthersOf(this))
    {
      if |direction| == 1 && Upper(direction[0]) == 'L' {
        head := Left(head);
      } else if |direction| == 1 && Upper(direction[0]) == 'R' {
        head := Right(head);
      }
      assert plat.Cells() == old(plat.Cells());
    }

    /** `move_forward`: check the target cell against the bounds, then against every registered
        rover (this one included), and only then move. */
    method MoveForward() returns (o: Outcome)
      requires plat.Valid() && this in plat.rovers
      modifies this`x, this`y
      ensures plat.Valid()
      ensures plat.OthersOf(this) == old(plat.OthersOf(this))
      ensures match Stepped(old(State()), old(Surroundings()))
        case Ok(q) => o == Pass && State() == q
        case Err(e) => o == Fail(e) && State() == old(State())
    {
      var (dx, dy) := Delta(head);
      var tx, ty := x + dx, y + dy;
      if !(0 <= tx <= plat.xdim && 0 <= ty <= plat.ydim) {
        return Fail(OutOfBounds);
      }
      ghost var others := plat.OthersOf(this);
      var i := 0;
      while i < |plat.rovers|
        invariant 0 <= i <= |plat.rovers|
        invariant forall k :: 0 <= k < i ==> plat.rovers[k].Cell() != (tx, ty)
      {
        if plat.rovers[i].Cell() == (tx, ty) {
          assert plat.rovers[i] != this;
          return Fail(PositionOccupied);
        }
        i := i + 1;
      }
      ghost var cells := plat.Cells();
      ghost var idx :| 0 <= idx < |plat.rovers| && plat.rovers[idx] == this;
      assert forall k :: 0 <= k < |cells| && k != idx ==> plat.rovers[k] != this by {
        forall k | 0 <= k < |cells| && k != idx ensures plat.rovers[k] != this {
          assert cells[k] != cells[idx] by { assert k < idx || idx < k; }
        }
      }
      assert (tx, ty) !in OthersAt(cells, idx);
      ReplaceKeepsWellPlaced(plat.xdim, plat.ydim, cells, idx, (tx, ty));
      x, y := tx, ty;
      assert plat.Cells() == cells[idx := (tx, ty)];
      assert plat.OthersOf(this) == others;
      return Pass;
    }

    /** `explore(navstring)`: validate the whole string, then apply it one character at a time,
        stopping at the first refused move. */
    method Explore(navstring: string) returns (o: Outcome)
      requires plat.Valid() && this in plat.rovers
      modifies this`x, this`y, this`head
      ensures plat.Valid()
      ensures (State(), o) == Explored(old(State()), navstring, old(Surroundings()))
    {
      if !ValidCommands(navstring) {
        return Fail(InvalidCommand);
      }
      ghost var t := Surroundings();
      ghost var start := State();
      var i := 0;
      while i < |navstring|
        invariant 0 <= i <= |navstring|
        invariant plat.Valid() && this in plat.rovers
        invariant Surroundings() == t
        invariant Run(start, navstring, t) == Run(State(), navstring[i..], t)
      {
        var c := navstring[i];
        assert navstring[i..][0] == c && navstring[i..][1..] == navstring[i + 1..];
        if c != 'M' {
          Rotate([c]);
        } else {
          o := MoveForward();
          if o.Fail? {
            return;
          }
        }
        i := i + 1;
      }
      return Pass;
    }
  }
}
