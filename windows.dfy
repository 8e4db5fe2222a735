/** The block ranges `refresh` asks the logs for: `for (let i = start; i < tip; i += 2000)` with
    `toBlock = i + 1999 > tip ? tip : i + 1999`, both ends inclusive. */
module BlockWindows {
  /** How far `i` advances per window. */
  const BlocksPerWindow := 2000

  datatype Window = Window(from: int, to: int)

  function Windows(start: int, tip: int): (ws: seq<Window>)
    decreases tip - start
  {
    if start < tip then
      [Window(start, if start + (BlocksPerWindow - 1) > tip then tip else start + (BlocksPerWindow - 1))] + Windows(start + BlocksPerWindow, tip)
    else []
  }

  /** Height `h` lies in one of the windows. */
  predicate Covers(ws: seq<Window>, h: int)
  {
    exists j :: 0 <= j < |ws| && ws[j].from <= h <= ws[j].to
  }

  /** The j-th window starts at `start + 2000 * j`, spans at most 2000 heights and ends no later than
      the tip; the next window starts right after it ends, so windows neither overlap nor leave a gap;
      and there are ceil((tip - start) / 2000) of them (none when start >= tip). */
  lemma {:induction false} WindowsShape(start: int, tip: int)
    ensures var ws := Windows(start, tip);
      |ws| == (if start < tip then (tip - start + BlocksPerWindow - 1) / BlocksPerWindow else 0) &&
      forall j :: 0 <= j < |ws| ==>
        ws[j].from == start + BlocksPerWindow * j &&
        ws[j].from <= ws[j].to <= tip &&
        ws[j].to - ws[j].from < BlocksPerWindow &&
        (j + 1 < |ws| ==> ws[j + 1].from == ws[j].to + 1)
    decreases tip - start
  {
    var ws := Windows(start, tip);
    if start < tip {
      var rest := Windows(start + BlocksPerWindow, tip);
      WindowsShape(start + BlocksPerWindow, tip);
      assert ws == [ws[0]] + rest;
      if start + BlocksPerWindow < tip {
        assert (tip - start + BlocksPerWindow - 1) / BlocksPerWindow == (tip - (start + BlocksPerWindow) + BlocksPerWindow - 1) / BlocksPerWindow + 1;
      } else {
        assert 0 < tip - start + BlocksPerWindow - 1 < 2 * BlocksPerWindow;
      }
      forall j | 0 <= j < |ws|
        ensures ws[j].from == start + BlocksPerWindow * j
        ensures ws[j].from <= ws[j].to <= tip && ws[j].to - ws[j].from < BlocksPerWindow
        ensures j + 1 < |ws| ==> ws[j + 1].from == ws[j].to + 1
      {
        if j > 0 {
          assert ws[j] == rest[j - 1];
          assert j + 1 < |ws| ==> ws[j + 1] == rest[j];
        } else if j + 1 < |ws| {
          assert ws[1] == rest[0];
        }
      }
    }
  }

  /** The windows cover every height from `start` up to, but not always including, the tip: the
      last window reaches the tip itself exactly when (tip - start) is not a multiple of 2000. */
  lemma {:induction false} WindowsCover(start: int, tip: int, h: int)
    ensures Covers(Windows(start, tip), h) <==>
      start <= h < tip || (h == tip && start < tip && (tip - start) % BlocksPerWindow != 0)
    decreases tip - start
  {
    var ws := Windows(start, tip);
    if start < tip {
      var rest := Windows(start + BlocksPerWindow, tip);
      WindowsCover(start + BlocksPerWindow, tip, h);
      assert ws == [ws[0]] + rest;
      assert (tip - start) % BlocksPerWindow == (tip - (start + BlocksPerWindow)) % BlocksPerWindow;
      if Covers(ws, h) {
        var j :| 0 <= j < |ws| && ws[j].from <= h <= ws[j].to;
        if j > 0 {
          assert ws[j] == rest[j - 1];
          assert Covers(rest, h);
        }
      }
      if start <= h <= ws[0].to {
        assert Covers(ws, h);
      } else if Covers(rest, h) {
        var j :| 0 <= j < |rest| && rest[j].from <= h <= rest[j].to;
        assert ws[j + 1] == rest[j];
      }
    }
  }

  /** Runs are chained: each run starts at the tip the previous one saved. Over two such runs
      every height from the first start up to the last tip is fetched by one of them, the tip of
      the first run included. */
  lemma AcrossRuns(a: int, b: int, c: int, h: int)
    requires a <= b <= c && a <= h < c
    ensures Covers(Windows(a, b), h) || Covers(Windows(b, c), h)
  {
    WindowsCover(a, b, h);
    WindowsCover(b, c, h);
  }

  /** From 0 to 4500: three windows, the last one clipped to the tip. */
  lemma ClippedLastWindow()
    ensures Windows(0, 4500) == [Window(0, 1999), Window(2000, 3999), Window(4000, 4500)]
    ensures forall h :: 0 <= h <= 4500 <==> Covers(Windows(0, 4500), h)
  {
    forall h ensures 0 <= h <= 4500 <==> Covers(Windows(0, 4500), h) {
      WindowsCover(0, 4500, h);
    }
  }

  /** With start 0 and tip 4000 the block at height 4000 is left to the next run. */
  lemma TipLeftToNextRun()
    ensures Windows(0, 4000) == [Window(0, 1999), Window(2000, 3999)]
    ensures !Covers(Windows(0, 4000), 4000)
  {
    WindowsCover(0, 4000, 4000);
  }
}
