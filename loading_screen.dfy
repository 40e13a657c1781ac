/** The loading screen's progress counter, stepped by a repeating timer until it reaches 100. */
module LoadingScreen {

  /** The state updater: 2 more below 100, otherwise held at 100. */
  function Tick(p: int): (r: int)
    ensures p < 100 ==> r == p + 2
    ensures p >= 100 ==> r == 100
  {
    if p >= 100 then 100 else p + 2
  }

  /** The progress after `n` timer ticks from the start. */
  function After(n: nat): int {
    if n == 0 then 0 else Tick(After(n - 1))
  }

  /** After `n` ticks the progress is `min(2n, 100)`. */
  lemma {:induction false} AfterClosedForm(n: nat)
    ensures After(n) == if 2 * n <= 100 then 2 * n else 100
  {
    if n > 0 {
      AfterClosedForm(n - 1);
    }
  }

  /** The progress is even, within [0, 100], and never decreases. */
  lemma AfterBounds(n: nat)
    ensures 0 <= After(n) <= 100 && After(n) % 2 == 0
    ensures After(n) <= After(n + 1)
  {
    AfterClosedForm(n);
    AfterClosedForm(n + 1);
  }

  /** The 50th tick reaches 100, and the 51st is the first to see 100 and schedule completion. */
  lemma CompletionTick(n: nat)
    ensures After(n) >= 100 <==> n >= 50
  {
    AfterClosedForm(n);
  }

  class Loader {
    var progress: int
    /** The timer still repeats. */
    var running: bool
    /** The completion callback has been scheduled. */
    var completing: bool

    /** Progress stays even and within [0, 100]; completion is scheduled exactly when the timer stopped, always at 100. */
    predicate Valid()
      reads this
    {
      && 0 <= progress <= 100 && progress % 2 == 0
      && (completing <==> !running)
      && (completing ==> progress == 100)
    }

    constructor ()
      ensures progress == 0 && running && !completing
      ensures Valid()
    {
      progress := 0;
      running := true;
      completing := false;
    }

    /** One tick of the timer: a tick that sees 100 stops the timer and schedules completion. */
    method TimerTick()
      modifies this
      ensures !old(running) ==> unchanged(this)
      ensures old(running) ==> progress == Tick(old(progress))
      ensures old(running) ==> (running <==> old(progress) < 100)
      ensures old(running) ==> completing == (old(completing) || old(progress) >= 100)
      ensures progress >= old(progress) || old(progress) > 100
      ensures old(Valid()) ==> Valid()
    {
      if !running {
        return;
      }
      if progress >= 100 {
        running := false;
        completing := true;
        progress := 100;
      } else {
        progress := progress + 2;
      }
    }
  }
}
