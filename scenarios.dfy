/** The doctest scenarios of tests.py, stated on the value model. Each rover is spawned with
    SpawnCheck against the cells of the rovers spawned before it, and explores with the cells of
    those rovers (where they ended) as its surroundings. */
module Scenarios {
  import opened Results
  import opened Headings
  import opened Navigation

  /** Runs a + b + c from p, given that a, b and c each complete and take the rover from p to
      q, from q to r and from r to s. Long command strings are evaluated in such legs. */
  lemma RunInLegs(p: Pose, a: string, q: Pose, b: string, r: Pose, c: string, s: Pose, t: Terrain)
    requires Run(p, a, t) == (q, Pass) && Run(q, b, t) == (r, Pass) && Run(r, c, t) == (s, Pass)
    ensures Run(p, a + b + c, t) == (s, Pass)
  {
    RunAppend(q, b, c, t);
    RunAppend(p, a, b + c, t);
    assert a + b + c == a + (b + c);
  }

  lemma Case1Rover1Leg1()
    ensures Run(Pose(1, 2, N), "LML", Terrain(5, 5, {})) == (Pose(0, 2, S), Pass)
  {
  }

  lemma Case1Rover1Leg2()
    ensures Run(Pose(0, 2, S), "MLM", Terrain(5, 5, {})) == (Pose(1, 1, E), Pass)
  {
  }

  lemma Case1Rover1Leg3()
    ensures Run(Pose(1, 1, E), "LMM", Terrain(5, 5, {})) == (Pose(1, 3, N), Pass)
  {
  }

  lemma Case1Rover1Run()
    ensures Run(Pose(1, 2, N), "LML" + "MLM" + "LMM", Terrain(5, 5, {})) == (Pose(1, 3, N), Pass)
  {
    Case1Rover1Leg1(); Case1Rover1Leg2(); Case1Rover1Leg3();
    RunInLegs(Pose(1, 2, N), "LML", Pose(0, 2, S), "MLM", Pose(1, 1, E), "LMM", Pose(1, 3, N), Terrain(5, 5, {}));
  }

  lemma Case1Rover2Leg1()
    ensures Run(Pose(3, 3, E), "MMR", Terrain(5, 5, {(1, 3)})) == (Pose(5, 3, S), Pass)
  {
  }

  lemma Case1Rover2Leg2()
    ensures Run(Pose(5, 3, S), "MMR", Terrain(5, 5, {(1, 3)})) == (Pose(5, 1, W), Pass)
  {
  }

  lemma Case1Rover2Leg3()
    ensures Run(Pose(5, 1, W), "MRRM", Terrain(5, 5, {(1, 3)})) == (Pose(5, 1, E), Pass)
  {
  }

  lemma Case1Rover2Run()
    ensures Run(Pose(3, 3, E), "MMR" + "MMR" + "MRRM", Terrain(5, 5, {(1, 3)})) == (Pose(5, 1, E), Pass)
  {
    Case1Rover2Leg1(); Case1Rover2Leg2(); Case1Rover2Leg3();
    RunInLegs(Pose(3, 3, E), "MMR", Pose(5, 3, S), "MMR", Pose(5, 1, W), "MRRM", Pose(5, 1, E), Terrain(5, 5, {(1, 3)}));
  }

  lemma Case2Rover1Leg1()
    ensures Run(Pose(0, 0, E), "MMM", Terrain(8, 3, {})) == (Pose(3, 0, E), Pass)
  {
  }

  lemma Case2Rover1Leg2()
    ensures Run(Pose(3, 0, E), "LLM", Terrain(8, 3, {})) == (Pose(2, 0, W), Pass)
  {
  }

  lemma Case2Rover1Leg3()
    ensures Run(Pose(2, 0, W), "MRM", Terrain(8, 3, {})) == (Pose(1, 1, N), Pass)
  {
  }

  lemma Case2Rover1Run()
    ensures Run(Pose(0, 0, E), "MMM" + "LLM" + "MRM", Terrain(8, 3, {})) == (Pose(1, 1, N), Pass)
  {
    Case2Rover1Leg1(); Case2Rover1Leg2(); Case2Rover1Leg3();
    RunInLegs(Pose(0, 0, E), "MMM", Pose(3, 0, E), "LLM", Pose(2, 0, W), "MRM", Pose(1, 1, N), Terrain(8, 3, {}));
  }

  lemma Case2Rover2Leg1()
    ensures Run(Pose(3, 0, S), "RRR", Terrain(8, 3, {(1, 1)})) == (Pose(3, 0, E), Pass)
  {
  }

  lemma Case2Rover2Leg2()
    ensures Run(Pose(3, 0, E), "MLM", Terrain(8, 3, {(1, 1)})) == (Pose(4, 1, N), Pass)
  {
  }

  lemma Case2Rover2Leg3()
    ensures Run(Pose(4, 1, N), "MMR", Terrain(8, 3, {(1, 1)})) == (Pose(4, 3, E), Pass)
  {
  }

  lemma Case2Rover2Run()
    ensures Run(Pose(3, 0, S), "RRR" + "MLM" + "MMR", Terrain(8, 3, {(1, 1)})) == (Pose(4, 3, E), Pass)
  {
    Case2Rover2Leg1(); Case2Rover2Leg2(); Case2Rover2Leg3();
    RunInLegs(Pose(3, 0, S), "RRR", Pose(3, 0, E), "MLM", Pose(4, 1, N), "MMR", Pose(4, 3, E), Terrain(8, 3, {(1, 1)}));
  }

  lemma Case2Rover3Run()
    ensures Run(Pose(8, 3, W), "MRL", Terrain(8, 3, {(1, 1), (4, 3)})) == (Pose(7, 3, W), Pass)
  {
  }

  /** The scenario command strings, validated and cut into the legs above. */
  lemma ScenarioCommands()
    ensures ValidCommands("LMLMLMLMM") && "LML" + "MLM" + "LMM" == "LMLMLMLMM"
    ensures ValidCommands("MMRMMRMRRM") && "MMR" + "MMR" + "MRRM" == "MMRMMRMRRM"
    ensures ValidCommands("MMMLLMMRM") && "MMM" + "LLM" + "MRM" == "MMMLLMMRM"
    ensures ValidCommands("RRRMLMMMR") && "RRR" + "MLM" + "MMR" == "RRRMLMMMR"
    ensures ValidCommands("MRL")
  {
  }

  /** Test case 1, first rover: on a 5 by 5 plateau, spawned at (1, 2, N), it ends at (1, 3, N). */
  lemma TestCase1Rover1()
    ensures SpawnCheck(5, 5, [], 1, 2, "N") == Ok(Pose(1, 2, N))
    ensures Explored(Pose(1, 2, N), "LMLMLMLMM", Terrain(5, 5, {})) == (Pose(1, 3, N), Pass)
  {
    ScenarioCommands();
    Case1Rover1Run();
  }

  /** Test case 1, second rover: spawned at (3, 3, E) with the first at (1, 3), it ends at (5, 1, E). */
  lemma TestCase1Rover2()
    ensures SpawnCheck(5, 5, [(1, 3)], 3, 3, "E") == Ok(Pose(3, 3, E))
    ensures Explored(Pose(3, 3, E), "MMRMMRMRRM", Terrain(5, 5, {(1, 3)})) == (Pose(5, 1, E), Pass)
  {
    ScenarioCommands();
    Case1Rover2Run();
  }

  /** Test case 2, first rover: on an 8 by 3 plateau, spawned at (0, 0, E), it ends at (1, 1, N). */
  lemma TestCase2Rover1()
    ensures SpawnCheck(8, 3, [], 0, 0, "E") == Ok(Pose(0, 0, E))
    ensures Explored(Pose(0, 0, E), "MMMLLMMRM", Terrain(8, 3, {})) == (Pose(1, 1, N), Pass)
  {
    ScenarioCommands();
    Case2Rover1Run();
  }

  /** Test case 2, second rover: spawned at (3, 0, S) with the first at (1, 1), it ends at (4, 3, E). */
  lemma TestCase2Rover2()
    ensures SpawnCheck(8, 3, [(1, 1)], 3, 0, "S") == Ok(Pose(3, 0, S))
    ensures Explored(Pose(3, 0, S), "RRRMLMMMR", Terrain(8, 3, {(1, 1)})) == (Pose(4, 3, E), Pass)
  {
    ScenarioCommands();
    Case2Rover2Run();
  }

  /** Test case 2, third rover: spawned at (8, 3, W) with the others at (1, 1) and (4, 3), it ends
      at (7, 3, W). */
  lemma TestCase2Rover3()
    ensures SpawnCheck(8, 3, [(1, 1), (4, 3)], 8, 3, "W") == Ok(Pose(8, 3, W))
    ensures Explored(Pose(8, 3, W), "MRL", Terrain(8, 3, {(1, 1), (4, 3)})) == (Pose(7, 3, W), Pass)
  {
    ScenarioCommands();
    Case2Rover3Run();
  }

  /** Test case 3: a rover cannot be spawned outside the plateau. */
  lemma TestCase3()
    ensures SpawnCheck(3, 4, [], 3, 5, "N") == Err(OutOfBounds)
  {
  }

  /** Test case 4: a rover driving off the plateau stops at the edge, at (3, 4, N). */
  lemma TestCase4()
    ensures Explored(Pose(3, 2, N), "MMM", Terrain(3, 4, {})) == (Pose(3, 4, N), Fail(OutOfBounds))
  {
  }

  /** Test case 5: no spawning onto, and no driving into, another rover's cell. */
  lemma TestCase5()
    ensures SpawnCheck(3, 4, [], 3, 2, "N") == Ok(Pose(3, 2, N))
    ensures SpawnCheck(3, 4, [(3, 2)], 3, 2, "E") == Err(PositionOccupied)
    ensures SpawnCheck(3, 4, [(3, 2)], 1, 2, "N") == Ok(Pose(1, 2, N))
    ensures Explored(Pose(1, 2, N), "RMM", Terrain(3, 4, {(3, 2)})) == (Pose(2, 2, E), Fail(PositionOccupied))
  {
  }
}
