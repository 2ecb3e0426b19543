/**
 The data of the repository's console driver: x runs over -5 .. 10,
 y = 2x + 5 and z = -3.2y - 3 = -6.4x - 19.  The pairs go into a pair
 regression and the points (x, y, z) into a three-dimensional
 accumulator; the fits recover the lines exactly.
 */
module StreamingScenario {
  import opened Deviations
  import RunningRegression
  import RunningStatsDS

  function Xs(): (xs: seq<real>)
    ensures |xs| == 16
  {
    seq(16, i => (i - 5) as real)
  }

  function Ys(): (ys: seq<real>)
    ensures |ys| == 16
  {
    seq(16, i requires 0 <= i < 16 => 2.0 * Xs()[i] + 5.0)
  }

  function Zs(): (zs: seq<real>)
    ensures |zs| == 16
  {
    seq(16, i requires 0 <= i < 16 => -3.2 * Ys()[i] - 3.0)
  }

  /** The rows (x, y, z) pushed into the three-dimensional accumulator. */
  function Rows(): (rows: seq<seq<real>>)
    ensures |rows| == 16 && RunningStatsDS.Wide(rows, 3)
  {
    seq(16, i requires 0 <= i < 16 => [Xs()[i], Ys()[i], Zs()[i]])
  }

  lemma Columns()
    ensures RunningStatsDS.Column(Rows(), 0) == Xs()
    ensures RunningStatsDS.Column(Rows(), 1) == Ys()
    ensures RunningStatsDS.Column(Rows(), 2) == Zs()
  {
  }

  lemma SpreadColumns()
    ensures Spread(Xs()) && Spread(Ys()) && Spread(Zs())
  {
    assert Xs()[0] != Xs()[1];
    assert Ys()[0] != Ys()[1];
    assert Zs()[0] != Zs()[1];
  }

  lemma LineXY()
    ensures OnLine(Xs(), Ys(), 2.0, 5.0)
  {
  }

  lemma LineXZ()
    ensures OnLine(Xs(), Zs(), -6.4, -19.0)
  {
    forall i | 0 <= i < 16
      ensures Zs()[i] == -6.4 * Xs()[i] - 19.0
    {
      assert Ys()[i] == 2.0 * Xs()[i] + 5.0;
    }
  }

  lemma LineZX()
    ensures OnLine(Zs(), Xs(), -0.15625, -2.96875)
  {
    LineXZ();
    forall i | 0 <= i < 16
      ensures Xs()[i] == -0.15625 * Zs()[i] - 2.96875
    {
      assert Zs()[i] == -6.4 * Xs()[i] - 19.0;
    }
  }

  /** The pair regression of y on x fed the sixteen pairs has slope 2 and intercept 5. */
  lemma PairScenario()
    ensures var r := RunningRegression.PushAll(RunningRegression.Clear(), Xs(), Ys());
            r.xStats.n != 1 && RunningRegression.Sxx(r) != 0.0 &&
            RunningRegression.Slope(r) == 2.0 && RunningRegression.Intercept(r) == 5.0
  {
    RunningRegression.AccumulateTracks(Xs(), Ys());
    SpreadColumns();
    LineXY();
    RunningRegression.LinearRecovery(RunningRegression.PushAll(RunningRegression.Clear(), Xs(), Ys()), Xs(), Ys(), 2.0, 5.0);
  }

  /** The three-dimensional accumulator fed the sixteen points (x, y, z). */
  function Accumulated(): (ds: RunningStatsDS.StatsDS)
  {
    RunningStatsDS.PushAll(RunningStatsDS.Fresh(3), Rows())
  }

  /** The accumulator has seen the rows, and no column is constant, so every slope is defined. */
  lemma AccumulatedTracks()
    ensures RunningStatsDS.Tracks(Accumulated(), Rows()) && Accumulated().dims == 3
    ensures RunningStatsDS.SlopesDefined(Accumulated())
  {
    RunningStatsDS.AccumulateTracks(3, Rows());
    ColumnsSpread();
    RunningStatsDS.SpreadDefinesSlopes(Accumulated(), Rows());
  }

  lemma ColumnsSpread()
    ensures forall x :: 0 <= x < 3 ==> Spread(RunningStatsDS.Column(Rows(), x))
  {
    Columns();
    SpreadColumns();
    forall x | 0 <= x < 3
      ensures Spread(RunningStatsDS.Column(Rows(), x))
    {
      if x == 0 {
      } else if x == 1 {
      } else {
      }
    }
  }

  /** y on x: slope 2, intercept 5. */
  lemma YOnX()
    ensures RunningStatsDS.SlopesDefined(Accumulated())
    ensures RunningStatsDS.Slopes(Accumulated())[0][1] == 2.0 && RunningStatsDS.Intercepts(Accumulated())[0][1] == 5.0
  {
    AccumulatedTracks();
    Columns();
    SpreadColumns();
    LineXY();
    RunningStatsDS.SlopesRecoverLine(Accumulated(), Rows(), 0, 1, 2.0, 5.0);
  }

  /** z on x: slope -6.4, intercept -19. */
  lemma ZOnX()
    ensures RunningStatsDS.SlopesDefined(Accumulated())
    ensures RunningStatsDS.Slopes(Accumulated())[0][2] == -6.4 && RunningStatsDS.Intercepts(Accumulated())[0][2] == -19.0
  {
    AccumulatedTracks();
    Columns();
    SpreadColumns();
    LineXZ();
    RunningStatsDS.SlopesRecoverLine(Accumulated(), Rows(), 0, 2, -6.4, -19.0);
  }

  /** x on z: slope -1/6.4, intercept -19/6.4. */
  lemma XOnZ()
    ensures RunningStatsDS.SlopesDefined(Accumulated())
    ensures RunningStatsDS.Slopes(Accumulated())[2][0] == -0.15625 && RunningStatsDS.Intercepts(Accumulated())[2][0] == -2.96875
  {
    AccumulatedTracks();
    Columns();
    SpreadColumns();
    LineZX();
    RunningStatsDS.SlopesRecoverLine(Accumulated(), Rows(), 2, 0, -0.15625, -2.96875);
  }
}
