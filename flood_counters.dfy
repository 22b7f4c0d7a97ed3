/**
 The per-channel flood counter table of mode +f: how many lines each user has
 sent in the current window, and when that window ends.
 */
module FloodCounters {

  /** A user, known here only by identity. */
  datatype User = User(id: nat)

  /** The counters of one channel and the time at which they are next cleared. */
  datatype Window = Window(counters: map<User, int>, reset: int)

  /** A user's count, 0 when the user has no entry. */
  function Count(m: map<User, int>, who: User): int {
    if who in m then m[who] else 0
  }

  /**
   Every entry has counted at least one line and fewer than `lines`: no user
   stays at the threshold once a message has been processed.
   */
  ghost predicate Bounded(w: Window, lines: int) {
    forall u :: u in w.counters ==> 1 <= w.counters[u] < lines
  }

  /** The window after one more line from `who` at time `now`. */
  function Added(w: Window, who: User, now: int, secs: int): (r: Window)
    ensures now <= w.reset ==>
      && r.reset == w.reset
      && r.counters.Keys == w.counters.Keys + {who}
      && r.counters[who] == Count(w.counters, who) + 1
      && forall u :: u in w.counters && u != who ==> r.counters[u] == w.counters[u]
    ensures now > w.reset ==> r == Window(map[], now + secs)
  {
    var counters := w.counters[who := Count(w.counters, who) + 1];
    if now > w.reset then Window(map[], now + secs) else Window(counters, w.reset)
  }

  /** Whether `who` has reached the line limit. */
  function Kicks(w: Window, who: User, lines: int): bool {
    who in w.counters && w.counters[who] >= lines
  }

  /** The window without `who`'s entry. */
  function Cleared(w: Window, who: User): (r: Window)
    ensures r.reset == w.reset && r.counters.Keys == w.counters.Keys - {who}
    ensures forall u :: u in r.counters ==> r.counters[u] == w.counters[u]
    ensures who !in w.counters ==> r == w
  {
    Window(w.counters - {who}, w.reset)
  }

  /**
   One line from `who`: count it, then, when the limit is reached, forget the
   user's entry. The flag says whether the user is to be kicked.
   */
  function Step(w: Window, who: User, now: int, lines: int, secs: int): (r: (Window, bool))
    ensures now > w.reset ==> r == (Window(map[], now + secs), false)
    ensures now <= w.reset ==> r.0.reset == w.reset
    ensures now <= w.reset ==> forall u :: u != who ==> Count(r.0.counters, u) == Count(w.counters, u)
    ensures r.1 ==> who !in r.0.counters
    ensures Bounded(w, lines) ==> Bounded(r.0, lines)
    ensures Bounded(w, lines) && now <= w.reset ==>
      && (r.1 <==> Count(w.counters, who) + 1 >= lines)
      && (!r.1 ==> Count(r.0.counters, who) == Count(w.counters, who) + 1)
  {
    var added := Added(w, who, now, secs);
    if Kicks(added, who, lines) then (Cleared(added, who), true) else (added, false)
  }

  /** The kick flags for a run of lines from one user at the given times. */
  function Replay(w: Window, who: User, times: seq<int>, lines: int, secs: int): (kicks: seq<bool>)
    ensures |kicks| == |times|
    decreases |times|
  {
    if times == [] then []
    else
      var s := Step(w, who, times[0], lines, secs);
      [s.1] + Replay(s.0, who, times[1..], lines, secs)
  }

  /**
   Within one window, a user who has sent `c` lines is kicked on exactly the
   `(lines - c)`-th further line, and not before.
   */
  lemma {:induction false} KickedOnLimitLine(w: Window, who: User, times: seq<int>, lines: int, secs: int)
    requires lines >= 1 && Bounded(w, lines)
    requires forall i :: 0 <= i < |times| ==> times[i] <= w.reset
    requires |times| == lines - Count(w.counters, who)
    ensures Replay(w, who, times, lines, secs) == seq(|times| - 1, _ => false) + [true]
    decreases |times|
  {
    var s := Step(w, who, times[0], lines, secs);
    if |times| == 1 {
      assert s.1;
    } else {
      assert !s.1;
      KickedOnLimitLine(s.0, who, times[1..], lines, secs);
      assert [false] + (seq(|times| - 2, _ => false) + [true]) == seq(|times| - 1, _ => false) + [true];
    }
  }

  /** Flood settings and counters of one channel, updated in place as lines arrive. */
  class FloodSettings {
    var ban: bool
    var secs: int
    var lines: int
    var reset: int
    var counters: map<User, int>

    /** The counter table as a value. */
    function State(): Window
      reads this
    {
      Window(counters, reset)
    }

    /** A fresh table: no counts, and the window ends `secs` seconds from `now`. */
    constructor (ban: bool, secs: int, lines: int, now: int)
      ensures this.ban == ban && this.secs == secs && this.lines == lines
      ensures counters == map[] && reset == now + secs
    {
      this.ban := ban;
      this.secs := secs;
      this.lines := lines;
      this.reset := now + secs;
      this.counters := map[];
    }

    /** Counts one line from `who`; a window that has already ended clears every count. */
    method AddMessage(who: User, now: int)
      modifies this
      ensures ban == old(ban) && secs == old(secs) && lines == old(lines)
      ensures State() == Added(old(State()), who, now, secs)
    {
      if who in counters {
        counters := counters[who := counters[who] + 1];
      } else {
        counters := counters[who := 1];
      }
      if now > reset {
        counters := map[];
        reset := now + secs;
      }
    }

    /** Whether `who` has reached the line limit; a user without an entry has not. */
    function ShouldKick(who: User): (r: bool)
      reads this
      ensures r == Kicks(State(), who, lines)
    {
      if who in counters then counters[who] >= lines else false
    }

    /** Forgets `who`'s count; nothing happens when there is none. */
    method Clear(who: User)
      modifies this
      ensures ban == old(ban) && secs == old(secs) && lines == old(lines)
      ensures State() == Cleared(old(State()), who)
    {
      if who in counters {
        counters := counters - {who};
      }
    }
  }
}
