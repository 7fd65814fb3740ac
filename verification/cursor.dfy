/**
  The base-frame cursor arithmetic of the draw loop: the nearest transition
  point, and one step of the idle and talking ping-pong.
*/
module CursorSteps {
  import opened Overlays

  /** Bounds of the idle sub-range used after user input (the refs start at 0 and 24 and are never reassigned). */
  const UserInputMinFrame := 0
  const UserInputMaxFrame := 24
  /** Cursor speed while it is outside the sub-range. */
  const CatchUpSpeed := 2

  function Abs(x: int): nat {
    if x < 0 then -x else x
  }

  function Min(a: int, b: int): int {
    if a <= b then a else b
  }

  function Max(a: int, b: int): int {
    if a >= b then a else b
  }

  /** `getNearestTransitionPoint`: the nearer of the two points, the first on a tie. */
  function NearestTransitionPoint(current: int, tr1: int, tr2: int): (p: int)
    ensures p == tr1 || p == tr2
    ensures Abs(current - p) <= Abs(current - tr1) && Abs(current - p) <= Abs(current - tr2)
    ensures Abs(current - tr1) == Abs(current - tr2) ==> p == tr1
  {
    if Abs(current - tr1) <= Abs(current - tr2) then tr1 else tr2
  }

  predicate IsDirection(fd: int) {
    fd == 1 || fd == -1
  }

  /**
    One idle step of the cursor. Without the sub-range it bounces between 0
    and the last idle frame; with it, it bounces inside the sub-range and
    comes back to it at double speed from outside.
  */
  function IdleCursor(c: Cursor, framesCount: nat, subRange: bool, lo: int, hi: int): (r: Cursor)
    ensures IsDirection(c.fd) ==> IsDirection(r.fd)
    ensures framesCount == 0 ==> r == c
  {
    var minFrame := if subRange then lo else 0;
    var maxFrame := if subRange then hi else if framesCount > 0 then framesCount - 1 else 0;
    var speed := if subRange && (c.gfi < minFrame || c.gfi > maxFrame) then CatchUpSpeed else 1;
    if framesCount == 0 then c
    else if c.gfi < minFrame then Cursor(Min(c.gfi + speed, minFrame), 1)
    else if c.gfi > maxFrame then Cursor(Max(c.gfi - speed, maxFrame), -1)
    else
      var g := c.gfi + c.fd * speed;
      if g >= maxFrame then Cursor(maxFrame, -1)
      else if g <= minFrame then Cursor(minFrame, 1)
      else Cursor(g, c.fd)
  }

  /** One talking step: the same bounce over the whole frame list, one frame per tick. */
  function TalkingCursor(c: Cursor, framesCount: nat): (r: Cursor)
    ensures IsDirection(c.fd) ==> IsDirection(r.fd)
    ensures framesCount == 0 ==> r == c
  {
    var maxFrame := if framesCount > 0 then framesCount - 1 else 0;
    if framesCount == 0 then c
    else if c.gfi < 0 then Cursor(c.gfi + 1, 1)
    else if c.gfi > maxFrame then Cursor(c.gfi - 1, -1)
    else
      var g := c.gfi + c.fd;
      if g >= maxFrame then Cursor(maxFrame, -1)
      else if g <= 0 then Cursor(0, 1)
      else Cursor(g, c.fd)
  }

  /** The talking bounce is the idle bounce without the sub-range. */
  lemma TalkingIsIdleWithoutSubRange(c: Cursor, framesCount: nat, lo: int, hi: int)
    ensures TalkingCursor(c, framesCount) == IdleCursor(c, framesCount, false, lo, hi)
  {
  }

  /**
    Without the sub-range the idle cursor stays on an idle frame and moves
    one frame per tick, turning round exactly on touching either end. A
    cursor pointing off an end (at frame 0 going backward, which the arrive
    fallback to idle leaves behind, or at the last frame going forward)
    stays where it is for one tick and turns.
  */
  lemma IdleCursorBounces(c: Cursor, n: nat, lo: int, hi: int)
    requires IsDirection(c.fd) && n >= 2 && 0 <= c.gfi <= n - 1
    ensures var r := IdleCursor(c, n, false, lo, hi);
      var offEnd := (c.gfi == 0 && c.fd == -1) || (c.gfi == n - 1 && c.fd == 1);
      && 0 <= r.gfi <= n - 1
      && (offEnd ==> r.gfi == c.gfi && r.fd == -c.fd)
      && (!offEnd ==> Abs(r.gfi - c.gfi) == 1)
      && (r.gfi == n - 1 ==> r.fd == -1)
      && (r.gfi == 0 ==> r.fd == 1)
      && (0 < r.gfi < n - 1 ==> r.fd == c.fd)
  {
  }

  /**
    With the sub-range active, a cursor outside it moves towards it at
    double speed, in the direction of the sub-range, and never overshoots
    the near bound.
  */
  lemma SubRangeCatchUp(c: Cursor, n: nat, lo: int, hi: int)
    requires IsDirection(c.fd) && n > 0 && lo <= hi
    requires c.gfi < lo || c.gfi > hi
    ensures var r := IdleCursor(c, n, true, lo, hi);
      && (c.gfi < lo ==> r.fd == 1 && r.gfi == Min(c.gfi + CatchUpSpeed, lo) && c.gfi < r.gfi <= lo)
      && (c.gfi > hi ==> r.fd == -1 && r.gfi == Max(c.gfi - CatchUpSpeed, hi) && hi <= r.gfi < c.gfi)
  {
  }

  /** Inside the sub-range the cursor stays inside it. */
  lemma SubRangeStaysInside(c: Cursor, n: nat, lo: int, hi: int)
    requires IsDirection(c.fd) && n > 0 && lo <= hi && lo <= c.gfi <= hi
    ensures var r := IdleCursor(c, n, true, lo, hi); lo <= r.gfi <= hi
  {
  }

  /** `steps` idle ticks without the sub-range. */
  function IdleRun(c: Cursor, n: nat, steps: nat): (r: Cursor)
    ensures IsDirection(c.fd) ==> IsDirection(r.fd)
    decreases steps
  {
    if steps == 0 then c else IdleRun(IdleCursor(c, n, false, 0, 0), n, steps - 1)
  }

  lemma {:induction false} IdleRunAdditive(c: Cursor, n: nat, a: nat, b: nat)
    ensures IdleRun(c, n, a + b) == IdleRun(IdleRun(c, n, a), n, b)
    decreases a
  {
    if a > 0 {
      IdleRunAdditive(IdleCursor(c, n, false, 0, 0), n, a - 1, b);
    }
  }

  /** Going forward from frame p, the cursor reaches the last frame and turns round. */
  lemma {:induction false} IdleRunUp(p: nat, n: nat)
    requires n >= 2 && p <= n - 2
    ensures IdleRun(Cursor(p, 1), n, n - 1 - p) == Cursor(n - 1, -1)
    decreases n - 1 - p
  {
    var next := IdleCursor(Cursor(p, 1), n, false, 0, 0);
    if p == n - 2 {
      assert next == Cursor(n - 1, -1);
    } else {
      assert next == Cursor(p + 1, 1);
      IdleRunUp(p + 1, n);
    }
  }

  /** Going backward from frame p, the cursor reaches frame 0 and turns round. */
  lemma {:induction false} IdleRunDown(p: nat, n: nat)
    requires n >= 2 && 1 <= p <= n - 1
    ensures IdleRun(Cursor(p, -1), n, p) == Cursor(0, 1)
    decreases p
  {
    var next := IdleCursor(Cursor(p, -1), n, false, 0, 0);
    if p == 1 {
      assert next == Cursor(0, 1);
    } else {
      assert next == Cursor(p - 1, -1);
      IdleRunDown(p - 1, n);
    }
  }

  /** Idle ping-pong round trip: from frame 0 going forward, 2(N-1) ticks bring the cursor back to frame 0 going forward. */
  lemma IdleRoundTrip(n: nat)
    requires n >= 2
    ensures IdleRun(Cursor(0, 1), n, 2 * (n - 1)) == Cursor(0, 1)
  {
    IdleRunAdditive(Cursor(0, 1), n, n - 1, n - 1);
    IdleRunUp(0, n);
    IdleRunDown(n - 1, n);
  }
}
