/** Threefold repetition: a count of how often each grid snapshot has been recorded. */
module History {
  import opened Board

  /** Grid snapshot to count; a missing snapshot counts 0, as in a dictionary with default 0. */
  type PositionHistory = map<Grid, nat>

  /** Snapshots at or above this count end the game in a draw. */
  const RepetitionLimit: nat := 3

  function Count(h: PositionHistory, s: Grid): nat
  {
    if s in h then h[s] else 0
  }

  /** Recording s: its count goes up by exactly one, every other count stays. */
  function Bump(h: PositionHistory, s: Grid): (r: PositionHistory)
    ensures Count(r, s) == Count(h, s) + 1
    ensures forall t :: t != s ==> Count(r, t) == Count(h, t)
    ensures forall t :: Count(h, t) <= Count(r, t)
  {
    h[s := Count(h, s) + 1]
  }

  /** The history after recording the snapshots ss in order. */
  function Replay(h: PositionHistory, ss: seq<Grid>): PositionHistory
  {
    if ss == [] then h else Bump(Replay(h, ss[..|ss| - 1]), ss[|ss| - 1])
  }

  /** After a run of recordings each count is the number of times its snapshot was recorded. */
  lemma {:induction false} ReplayCounts(h: PositionHistory, ss: seq<Grid>, s: Grid)
    ensures Count(Replay(h, ss), s) == Count(h, s) + multiset(ss)[s]
  {
    if ss != [] {
      var init := ss[..|ss| - 1];
      ReplayCounts(h, init, s);
      assert ss == init + [ss[|ss| - 1]];
    }
  }

  /** Starting from an empty history, recording s reports a draw exactly when s has already
      been recorded at least twice: the first two occurrences never do. */
  lemma ThirdOccurrenceDraws(ss: seq<Grid>, s: Grid)
    ensures Count(Bump(Replay(map[], ss), s), s) >= RepetitionLimit <==> multiset(ss)[s] >= 2
  {
    ReplayCounts(map[], ss, s);
  }
}
