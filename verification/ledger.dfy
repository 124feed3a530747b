/** The per-conversation ledger of recently sent messages: an ordered list of
    (message id, send time) pairs, oldest first, with a fixed capacity. */
module Ledger {

  /** A transport message id as the protocol end hands it back: an integer or a string. */
  datatype MessageId = IntId(n: int) | StrId(s: string)

  /** One ledger entry, the `(message_id, timestamp)` tuple. */
  datatype Entry = Entry(id: MessageId, sentAt: int)

  /** Appending at the tail, then dropping the head once the list is longer than `cap`
      (the `append` followed by `pop(0)` of the recorder). */
  function Append(entries: seq<Entry>, e: Entry, cap: nat): seq<Entry>
  {
    var grown := entries + [e];
    if |grown| > cap then grown[1..] else grown
  }

  /** The `n` most recent entries of `s`, in their original order. */
  function LastN(s: seq<Entry>, n: nat): seq<Entry>
  {
    if |s| <= n then s else s[|s| - n..]
  }

  /** Removing the tail entry (`list.pop()`). */
  function PopLast(entries: seq<Entry>): seq<Entry>
    requires entries != []
  {
    entries[..|entries| - 1]
  }

  /** Recording a series of sends, one `Append` after another. */
  function AppendAll(entries: seq<Entry>, es: seq<Entry>, cap: nat): seq<Entry>
    decreases |es|
  {
    if es == [] then entries else AppendAll(Append(entries, es[0], cap), es[1..], cap)
  }

  /** One append on a ledger within capacity keeps it within capacity, keeps exactly the
      `cap` most recent entries and puts the new entry at the tail. */
  lemma AppendKeepsMostRecent(entries: seq<Entry>, e: Entry, cap: nat)
    requires |entries| <= cap
    ensures |Append(entries, e, cap)| == if |entries| < cap then |entries| + 1 else cap
    ensures Append(entries, e, cap) == LastN(entries + [e], cap)
    ensures cap > 0 ==> Append(entries, e, cap)[|Append(entries, e, cap)| - 1] == e
  {
  }

  /** Taking the last `n` twice, with more entries appended in between, is the same as
      taking the last `n` once at the end. */
  lemma LastNAbsorbs(s: seq<Entry>, t: seq<Entry>, n: nat)
    ensures LastN(LastN(s, n) + t, n) == LastN(s + t, n)
  {
  }

  /** The eviction law: however many sends are recorded on a ledger within capacity, it
      holds exactly the `cap` most recent of all entries, in send order. */
  lemma {:induction false} FifoLaw(entries: seq<Entry>, es: seq<Entry>, cap: nat)
    requires |entries| <= cap
    ensures |AppendAll(entries, es, cap)| <= cap
    ensures AppendAll(entries, es, cap) == LastN(entries + es, cap)
    decreases |es|
  {
    if es == [] {
      assert entries + es == entries;
    } else {
      var next := Append(entries, es[0], cap);
      AppendKeepsMostRecent(entries, es[0], cap);
      FifoLaw(next, es[1..], cap);
      LastNAbsorbs(entries + [es[0]], es[1..], cap);
      assert entries + [es[0]] + es[1..] == entries + es;
    }
  }

  /** Below capacity, popping the tail right after an append gives back the ledger. */
  lemma AppendThenPop(entries: seq<Entry>, e: Entry, cap: nat)
    requires |entries| < cap
    ensures Append(entries, e, cap) != []
    ensures PopLast(Append(entries, e, cap)) == entries
  {
  }

  /** At capacity the append has already evicted the head, so popping the tail leaves the
      ledger one entry shorter than before. */
  lemma AppendThenPopAtCapacity(entries: seq<Entry>, e: Entry, cap: nat)
    requires |entries| == cap && cap > 0
    ensures Append(entries, e, cap) != []
    ensures PopLast(Append(entries, e, cap)) == entries[1..]
    ensures PopLast(Append(entries, e, cap)) != entries
  {
  }
}
