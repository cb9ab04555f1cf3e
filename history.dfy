/** The voting-history window the client shows: the latest rounds, newest first. */
module History {
  import opened Config
  import opened Remote

  /** A history entry after its numeric fields were converted to integers. */
  datatype Entry = Entry(round: int, winnerName: string, voteCount: int)

  /** Converts `round` and `voteCount`; every other field is copied as it is. */
  function Parse(e: RawEntry): Entry
  {
    Entry(ToInt(e.round), e.winnerName, ToInt(e.voteCount))
  }

  /** `s.slice(-k)` for `k >= 1`: the last `k` elements, or all of `s` when it is shorter. */
  function Last<T>(s: seq<T>, k: nat): (r: seq<T>)
    requires k > 0
    ensures |r| == if |s| < k then |s| else k
    ensures forall i :: 0 <= i < |r| ==> r[i] == s[|s| - |r| + i]
  {
    s[if |s| > k then |s| - k else 0..]
  }

  /** `s.reverse()`. */
  function Reverse<T>(s: seq<T>): (r: seq<T>)
    ensures |r| == |s|
    ensures forall i :: 0 <= i < |s| ==> r[i] == s[|s| - 1 - i]
  {
    if s == [] then [] else Reverse(s[1..]) + [s[0]]
  }

  /** `s.map(Parse)`. */
  function ParseAll(s: seq<RawEntry>): seq<Entry>
  {
    seq(|s|, i requires 0 <= i < |s| => Parse(s[i]))
  }

  /**
   * The history the client keeps after a fetch: last ten entries, reversed,
   * numeric fields converted. Entry `i` of the result is remote entry
   * `n - 1 - i`, so the newest round comes first.
   */
  function LatestHistory(h: seq<RawEntry>): (r: seq<Entry>)
    ensures |r| == if |h| < HISTORY_WINDOW then |h| else HISTORY_WINDOW
    ensures forall i :: 0 <= i < |r| ==> r[i] == Parse(h[|h| - 1 - i])
  {
    ParseAll(Reverse(Last(h, HISTORY_WINDOW)))
  }

  /** A remote log whose entry `j` records round `j + 1`. */
  ghost predicate RoundsNumberedFromOne(h: seq<RawEntry>)
  {
    forall j :: 0 <= j < |h| ==> ToInt(h[j].round) == j + 1
  }

  /** The window copies each kept entry's winner and converts its round and vote count. */
  lemma WindowEntries(h: seq<RawEntry>, i: nat)
    requires i < |LatestHistory(h)|
    ensures LatestHistory(h)[i].round == ToInt(h[|h| - 1 - i].round)
    ensures LatestHistory(h)[i].winnerName == h[|h| - 1 - i].winnerName
    ensures LatestHistory(h)[i].voteCount == ToInt(h[|h| - 1 - i].voteCount)
  {
  }

  /** With 23 rounds on chain the client shows rounds 23, 22, …, 14. */
  lemma TwentyThreeRounds(h: seq<RawEntry>)
    requires |h| == 23 && RoundsNumberedFromOne(h)
    ensures |LatestHistory(h)| == 10
    ensures forall i :: 0 <= i < 10 ==> LatestHistory(h)[i].round == 23 - i
  {
  }

  /** If the remote log lists rounds in increasing order, the window lists them in decreasing order. */
  lemma NewestFirst(h: seq<RawEntry>)
    requires forall i, j :: 0 <= i < j < |h| ==> ToInt(h[i].round) < ToInt(h[j].round)
    ensures forall i, j :: 0 <= i < j < |LatestHistory(h)| ==>
      LatestHistory(h)[i].round > LatestHistory(h)[j].round
  {
  }
}
