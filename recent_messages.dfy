/** The recent-message log shown in the MIDI panel: a bounded list, newest
    entry first, that `addRecentMessage` keeps at no more than ten entries. */
module RecentMessages {

  const MaxRecent: nat := 10

  function Min(a: nat, b: nat): nat {
    if a < b then a else b
  }

  /** The log after one entry is added: the entry goes to the front, the older
      entries follow in their order, and the oldest are dropped past ten. */
  function PushRecent<T>(log: seq<T>, entry: T): (r: seq<T>)
    ensures |r| == Min(|log| + 1, MaxRecent)
    ensures r[0] == entry
    ensures forall i :: 1 <= i < |r| ==> r[i] == log[i - 1]
  {
    var full := [entry] + log;
    if |full| > MaxRecent then full[..MaxRecent] else full
  }

  /** The log after the entries are added one at a time, first to last. */
  function History<T>(log: seq<T>, entries: seq<T>): seq<T>
    decreases |entries|
  {
    if entries == [] then log
    else PushRecent(History(log, entries[..|entries| - 1]), entries[|entries| - 1])
  }

  /** A sequence in reverse order. */
  function Reversed<T>(s: seq<T>): (r: seq<T>)
    ensures |r| == |s|
    ensures forall i :: 0 <= i < |s| ==> r[i] == s[|s| - 1 - i]
    decreases |s|
  {
    if s == [] then [] else [s[|s| - 1]] + Reversed(s[..|s| - 1])
  }

  /** After any run of additions the log holds the most recent entries, newest
      first, followed by what was there before, cut to the ten most recent. */
  lemma {:induction false} HistoryIsNewestFirst<T>(log: seq<T>, entries: seq<T>)
    requires |log| <= MaxRecent
    ensures History(log, entries) == (Reversed(entries) + log)[..Min(|entries| + |log|, MaxRecent)]
    decreases |entries|
  {
    if entries != [] {
      var n := |entries|;
      var init, last := entries[..n - 1], entries[n - 1];
      HistoryIsNewestFirst(log, init);
      var before := History(log, init);
      var whole := Reversed(entries) + log;
      assert Reversed(entries) == [last] + Reversed(init);
      assert whole == [last] + (Reversed(init) + log);
      var after := PushRecent(before, last);
      assert |after| == Min(n + |log|, MaxRecent);
      forall i | 0 <= i < |after|
        ensures after[i] == whole[i]
      {
        if i > 0 {
          assert after[i] == before[i - 1];
        }
      }
    }
  }

  /** Starting from an empty log (as the module does), the log is the last
      min(n, 10) recognised messages in reverse arrival order. */
  lemma FromEmpty<T>(entries: seq<T>)
    ensures var h := History([], entries);
      && |h| == Min(|entries|, MaxRecent)
      && forall i :: 0 <= i < |h| ==> h[i] == entries[|entries| - 1 - i]
  {
    HistoryIsNewestFirst([], entries);
    assert Reversed(entries) + [] == Reversed(entries);
  }
}
