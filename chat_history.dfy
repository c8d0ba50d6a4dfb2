// Windowing of a chat history into chat-completion messages
// (module/analysis/llm/utils.py, format_recent_chat_history): sort the
// entries by time, keep the n most recent, and turn each one with a known
// speaker into a user or assistant message.

module ChatHistory {
  import opened Calendar
  import opened Frames

  /**
   * One history entry, its timestamp already a datetime: the second it falls
   * in and the microseconds within that second (0 to 999999).
   */
  datatype Entry = Entry(timestamp: Instant, micro: Micro, speaker: string, message: string)

  /** The microsecond field of a datetime. */
  type Micro = m: int | 0 <= m < 1000000

  datatype Role = User | Assistant

  /** {"role": role, "content": content}. */
  datatype Message = Message(role: Role, content: string)

  /** The timestamp in microseconds, the order sorted compares. */
  function TimeOf(e: Entry): int {
    Rank(e.timestamp) * 1000000 + e.micro
  }

  /** An entry in an earlier second sorts before any entry in a later one, whatever their microseconds. */
  lemma TimeOfRespectsSeconds(a: Entry, b: Entry)
    requires Rank(a.timestamp) < Rank(b.timestamp)
    ensures TimeOf(a) < TimeOf(b)
  {
  }

  /** sorted(chat_history, key=timestamp): ascending by time, ties in input order. */
  function SortedHistory(history: seq<Entry>): (r: seq<Entry>)
    ensures |r| == |history| && multiset(r) == multiset(history)
    ensures SortedBy(r, TimeOf)
  {
    SortBy(history, TimeOf)
  }

  /**
   * sorted_history[-n:] as written: Python's slice from index -n. For n > 0
   * that is the last n entries (all of them when fewer), for n == 0 it is
   * the whole list (-0 is 0), and for n < 0 it drops the first -n entries.
   */
  function LastNAsWritten<T>(s: seq<T>, n: int): seq<T> {
    var start :=
      if n > 0 then (if n < |s| then |s| - n else 0)
      else if -n < |s| then -n else |s|;
    s[start..]
  }

  /** The n most recent entries: none when n <= 0, otherwise the last min(n, |s|). */
  function LastN<T>(s: seq<T>, n: int): (r: seq<T>)
    ensures |r| == if n <= 0 then 0 else if n < |s| then n else |s|
    ensures r == s[|s| - |r|..]
  {
    if n <= 0 then [] else if n < |s| then s[|s| - n..] else s
  }

  /** With n == 0 the slice as written keeps every entry, where no entry is wanted. */
  lemma ZeroWindowKeepsAll<T>(s: seq<T>)
    requires s != []
    ensures LastNAsWritten(s, 0) == s
    ensures LastN(s, 0) == [] && LastN(s, 0) != LastNAsWritten(s, 0)
  {
  }

  /** For a positive n the slice as written and the corrected window agree. */
  lemma WindowsAgreeForPositive<T>(s: seq<T>, n: int)
    requires n > 0
    ensures LastN(s, n) == LastNAsWritten(s, n)
  {
  }

  /** A suffix of a sorted sequence is sorted and holds its largest keys. */
  lemma SortedSuffix<T>(s: seq<T>, key: T -> int, k: int)
    requires SortedBy(s, key) && 0 <= k <= |s|
    ensures SortedBy(s[k..], key)
    ensures forall i, j :: 0 <= i < k && 0 <= j < |s| - k ==> key(s[i]) <= key(s[k..][j])
    ensures multiset(s) == multiset(s[..k]) + multiset(s[k..])
  {
    assert s == s[..k] + s[k..];
  }

  /** For n < 0 the slice as written drops the first -n entries, where the corrected window keeps none. */
  lemma NegativeWindowDropsFirst<T>(s: seq<T>, n: int)
    requires n < 0
    ensures -n < |s| ==> LastNAsWritten(s, n) == s[-n..] && LastN(s, n) == [] && LastN(s, n) != LastNAsWritten(s, n)
    ensures -n >= |s| ==> LastNAsWritten(s, n) == []
  {
  }

  /** The window holds the latest entries: nothing left out is later than anything kept. */
  lemma RecentAreLatest(history: seq<Entry>, n: int)
    ensures var s := SortedHistory(history);
      var r := LastN(s, n);
      SortedBy(r, TimeOf)
      && multiset(r) <= multiset(history)
      && forall i, j :: 0 <= i < |s| - |r| && 0 <= j < |r| ==> TimeOf(s[i]) <= TimeOf(r[j])
  {
    var s := SortedHistory(history);
    SortedSuffix(s, TimeOf, |s| - |LastN(s, n)|);
  }

  /** speaker "user" speaks as the user, "llama" and "gpt" as the assistant. */
  predicate Known(e: Entry) {
    e.speaker == "user" || e.speaker == "llama" || e.speaker == "gpt"
  }

  /** The message a known entry becomes. */
  function ToMessage(e: Entry): Message {
    Message(if e.speaker == "user" then User else Assistant, e.message)
  }

  /** The messages of a window: one per entry with a known speaker, in window order. */
  function Formatted(recent: seq<Entry>): seq<Message> {
    MapSeq(Filter(recent, Known), ToMessage)
  }

  /**
   * format_recent_chat_history: the loop over the window that appends one
   * message per known speaker and skips the others.
   */
  method FormatRecentChatHistory(history: seq<Entry>, n: int) returns (messages: seq<Message>)
    ensures messages == Formatted(LastN(SortedHistory(history), n))
  {
    var recent := LastN(SortedHistory(history), n);
    messages := [];
    for k := 0 to |recent|
      invariant messages == Formatted(recent[..k])
    {
      var entry := recent[k];
      var role: Role;
      var known := true;
      if entry.speaker == "user" {
        role := User;
      } else if entry.speaker == "llama" || entry.speaker == "gpt" {
        role := Assistant;
      } else {
        known := false;
      }
      if known {
        messages := messages + [Message(role, entry.message)];
      }
      FilterMapPrefix(recent, k, Known, ToMessage);
    }
    assert recent[..|recent|] == recent;
  }

  /** There are never more messages than the window holds, nor than n. */
  lemma FormattedLength(history: seq<Entry>, n: int)
    ensures |Formatted(LastN(SortedHistory(history), n))| <= |LastN(SortedHistory(history), n)|
    ensures |Formatted(LastN(SortedHistory(history), n))| <= if n <= 0 then 0 else n
  {
  }

  /**
   * Every message comes from an entry of the window with a known speaker, the
   * user's entries as user messages and the models' as assistant messages.
   */
  lemma MessageFromEntry(recent: seq<Entry>, m: Message)
    ensures m in Formatted(recent) <==>
      exists e :: e in recent && Known(e) && m.content == e.message
        && (m.role == User <==> e.speaker == "user")
  {
    FilterMapMember(recent, Known, ToMessage, m);
    if exists e :: e in recent && Known(e) && m.content == e.message && (m.role == User <==> e.speaker == "user") {
      var e :| e in recent && Known(e) && m.content == e.message && (m.role == User <==> e.speaker == "user");
      assert m == ToMessage(e);
    }
  }

  /**
   * Unknown speakers are dropped after the cut: an older user entry outside a
   * one-entry window does not replace a newer entry from an unknown speaker.
   */
  lemma UnknownTakesASlot(t: Instant, u: Instant)
    requires Rank(t) < Rank(u)
    ensures Formatted(LastN(SortedHistory([Entry(t, 0, "user", "hi"), Entry(u, 0, "system", "note")]), 1)) == []
  {
    var a, b := Entry(t, 0, "user", "hi"), Entry(u, 0, "system", "note");
    assert [a, b][..1] == [a];
    assert SortBy([a], TimeOf) == [a];
    assert InsertBy(b, [a], TimeOf) == [a, b];
    var s := SortedHistory([a, b]);
    assert s == [a, b];
    assert LastN(s, 1) == [b];
    assert Filter([b], Known) == [];
  }
}
