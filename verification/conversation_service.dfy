/** The chatbot's conversation store: a conversations collection keyed by id
    and a messages collection whose documents name their conversation.
    Instants are milliseconds; the clock and the store's fresh ids are
    parameters. */
module ConversationService {
  import opened Wrappers
  import opened DocumentIds

  /** How many messages a conversation is read back with. */
  const MaxConversationHistory := 10

  const DatabaseError := "Erro no banco de dados"
  const ConversationNotFound := "Conversa não encontrada"
  const DefaultTitle := "Nova Conversa"
  const DefaultLanguage := "pt-BR"
  const SchemaVersion := "1.0"

  /** Every failure of the service is rethrown with this prefix. */
  function DbError(message: string): string {
    DatabaseError + ": " + message
  }

  /** A free-form JSON object, reduced to string values. */
  type Context = map<string, string>

  datatype Role = UserRole | AssistantRole | SystemRole

  datatype Message = Message(
    id: string,
    conversationId: string,
    role: Role,
    content: string,
    timestamp: int,
    metadata: Context)

  datatype ConversationMetadata = ConversationMetadata(context: Context, language: string, version: string)

  /** The metadata a conversation starts with, and is reset to. */
  function InitialMetadata(context: Context): ConversationMetadata {
    ConversationMetadata(context, DefaultLanguage, SchemaVersion)
  }

  datatype Conversation = Conversation(
    id: string,
    userId: string,
    title: string,
    createdAt: int,
    updatedAt: int,
    lastMessageAt: Option<int>,
    isActive: bool,
    metadata: ConversationMetadata)

  /** Both collections. The messages are kept as the list the store hands
      back for a query without `orderBy`. */
  datatype ChatStore = ChatStore(conversations: map<string, Conversation>, messages: seq<Message>)

  /** A conversation as the service returns it, with its recent messages. */
  datatype ConversationWithMessages = ConversationWithMessages(conversation: Conversation, messages: seq<Message>)

  /** No stored message carries `id`. */
  predicate FreshMessageId(store: ChatStore, id: string) {
    id != "" && forall m :: m in store.messages ==> m.id != id
  }

  // ----- Queries on the messages collection -----

  /** `where('conversationId', '==', cid)` when `keep`, and the messages it
      leaves behind otherwise; the store's listing order is kept. */
  function Where(ms: seq<Message>, cid: string, keep: bool): (r: seq<Message>)
    ensures forall m :: m in r <==> m in ms && (m.conversationId == cid) == keep
    ensures |r| <= |ms|
  {
    if |ms| == 0 then []
    else (if (ms[0].conversationId == cid) == keep then [ms[0]] else []) + Where(ms[1..], cid, keep)
  }

  /** The messages of one conversation. */
  function OfConversation(store: ChatStore, cid: string): seq<Message> {
    Where(store.messages, cid, true)
  }

  lemma {:induction false} WhereAppend(a: seq<Message>, b: seq<Message>, cid: string, keep: bool)
    ensures Where(a + b, cid, keep) == Where(a, cid, keep) + Where(b, cid, keep)
    decreases |a|
  {
    if |a| > 0 {
      assert (a + b)[1..] == a[1..] + b;
      WhereAppend(a[1..], b, cid, keep);
    } else {
      assert a + b == b;
    }
  }

  /** Filtering twice on the same conversation: keeping what was kept
      changes nothing, keeping what was dropped keeps nothing. */
  lemma {:induction false} WhereTwice(ms: seq<Message>, cid: string, keep: bool)
    ensures Where(Where(ms, cid, keep), cid, keep) == Where(ms, cid, keep)
    ensures Where(Where(ms, cid, keep), cid, !keep) == []
    decreases |ms|
  {
    if |ms| > 0 {
      var head := if (ms[0].conversationId == cid) == keep then [ms[0]] else [];
      WhereTwice(ms[1..], cid, keep);
      WhereAppend(head, Where(ms[1..], cid, keep), cid, keep);
      WhereAppend(head, Where(ms[1..], cid, keep), cid, !keep);
      if head != [] {
        assert [ms[0]][1..] == [];
      }
    }
  }

  // ----- Ordering by timestamp -----

  /** `a` may stand before `b` in a list ordered by timestamp, ascending or
      descending. */
  predicate InOrder(a: Message, b: Message, descending: bool) {
    if descending then a.timestamp >= b.timestamp else a.timestamp <= b.timestamp
  }

  predicate Sorted(s: seq<Message>, descending: bool) {
    forall i, j :: 0 <= i < j < |s| ==> InOrder(s[i], s[j], descending)
  }

  /** Inserts `m` before the first element it may precede, so that it stays
      ahead of elements with an equal timestamp. */
  function Insert(m: Message, s: seq<Message>, descending: bool): (r: seq<Message>)
    ensures multiset(r) == multiset(s) + multiset{m}
    ensures |r| == |s| + 1
  {
    if |s| == 0 || InOrder(m, s[0], descending) then [m] + s
    else
      assert s == [s[0]] + s[1..];
      [s[0]] + Insert(m, s[1..], descending)
  }

  lemma {:induction false} InsertKeepsSorted(m: Message, s: seq<Message>, descending: bool)
    requires Sorted(s, descending)
    ensures Sorted(Insert(m, s, descending), descending)
    decreases |s|
  {
    if |s| > 0 && !InOrder(m, s[0], descending) {
      var rest := Insert(m, s[1..], descending);
      InsertKeepsSorted(m, s[1..], descending);
      forall k | 0 <= k < |rest| ensures InOrder(s[0], rest[k], descending) {
        assert rest[k] in multiset(rest);
        if rest[k] != m {
          assert rest[k] in multiset(s[1..]);
          var j :| 0 <= j < |s[1..]| && s[1..][j] == rest[k];
          assert s[j + 1] == rest[k];
        }
      }
      assert Insert(m, s, descending) == [s[0]] + rest;
    }
  }

  /** The comparator sort of the source: stable, by timestamp. */
  function SortBy(s: seq<Message>, descending: bool): (r: seq<Message>)
    ensures Sorted(r, descending)
    ensures multiset(r) == multiset(s)
    ensures |r| == |s|
  {
    if |s| == 0 then []
    else
      assert s == [s[0]] + s[1..];
      var sorted := SortBy(s[1..], descending);
      InsertKeepsSorted(s[0], sorted, descending);
      Insert(s[0], sorted, descending)
  }

  /** `limit(n)` on a query. */
  function Take(s: seq<Message>, n: nat): (r: seq<Message>)
    ensures |r| == if n < |s| then n else |s|
    ensures r == s[..|r|]
  {
    if n < |s| then s[..n] else s
  }

  /** JavaScript `s.slice(-n)`: the last `n` elements, and all of them when
      `n` is zero, since `-0` is `0`. */
  function SliceFromEnd(s: seq<Message>, n: nat): (r: seq<Message>)
    ensures n == 0 ==> r == s
    ensures n > 0 ==> |r| == (if n < |s| then n else |s|)
    ensures r == s[|s| - |r|..]
  {
    if n == 0 || n >= |s| then s else s[|s| - n..]
  }

  /** A split of `s` at `k` keeps its elements. */
  lemma {:induction false} SplitKeepsMultiset(s: seq<Message>, k: nat)
    requires k <= |s|
    ensures multiset(s) == multiset(s[..k]) + multiset(s[k..])
  {
    assert s == s[..k] + s[k..];
  }

  /** The tail an ascending list's `slice(-n)` keeps is ascending and part
      of the list. */
  lemma {:induction false} SliceOfSorted(s: seq<Message>, n: nat)
    requires Sorted(s, false)
    ensures Sorted(SliceFromEnd(s, n), false)
    ensures multiset(SliceFromEnd(s, n)) <= multiset(s)
  {
    var k := |s| - |SliceFromEnd(s, n)|;
    assert SliceFromEnd(s, n) == s[k..];
    SplitKeepsMultiset(s, k);
    SortedSuffix(s, k, false);
  }

  /** Elements of a sub-multiset are elements of the whole. */
  lemma {:induction false} SubMultisetMembers(a: seq<Message>, b: seq<Message>)
    requires multiset(a) <= multiset(b)
    ensures forall m :: m in a ==> m in b
  {
    forall m | m in a ensures m in b {
      assert m in multiset(a);
    }
  }

  /** The indexed query: newest first, cut at `limit`, then sorted oldest
      first. */
  function IndexedQuery(found: seq<Message>, limit: nat): (r: seq<Message>)
    ensures Sorted(r, false)
    ensures multiset(r) <= multiset(found)
    ensures |r| == if limit < |found| then limit else |found|
  {
    var newest := SortBy(found, true);
    var kept := Take(newest, limit);
    SplitKeepsMultiset(newest, |kept|);
    SortBy(kept, false)
  }

  /** The fallback: sorted oldest first, then `slice(-limit)`. */
  function FallbackQuery(found: seq<Message>, limit: nat): (r: seq<Message>)
    ensures Sorted(r, false)
    ensures multiset(r) <= multiset(found)
    ensures limit == 0 ==> multiset(r) == multiset(found)
    ensures limit > 0 ==> |r| == if limit < |found| then limit else |found|
  {
    var ordered := SortBy(found, false);
    SliceOfSorted(ordered, limit);
    SliceFromEnd(ordered, limit)
  }

  /** `getRecentMessages`: the newest `limit` messages, oldest first. The
      indexed query orders by timestamp descending and cuts; when the index
      is missing (`indexMissing`, the store's FAILED_PRECONDITION) every
      message is read, sorted ascending and its tail kept. */
  function GetRecentMessages(store: ChatStore, cid: string, limit: nat, indexMissing: bool): (r: seq<Message>)
    ensures Sorted(r, false)
    ensures forall m :: m in r ==> m in store.messages && m.conversationId == cid
    ensures multiset(r) <= multiset(OfConversation(store, cid))
    ensures limit > 0 ==> |r| == if limit < |OfConversation(store, cid)| then limit else |OfConversation(store, cid)|
    ensures limit == 0 && !indexMissing ==> r == []
    ensures limit == 0 && indexMissing ==> multiset(r) == multiset(OfConversation(store, cid))
  {
    var found := OfConversation(store, cid);
    var r := if indexMissing then FallbackQuery(found, limit) else IndexedQuery(found, limit);
    SubMultisetMembers(r, found);
    r
  }

  /** In a sorted list, everything before a cut may stand before everything
      after it. */
  lemma {:induction false} SplitOrder(s: seq<Message>, cut: nat, a: Message, b: Message, descending: bool)
    requires Sorted(s, descending) && cut <= |s|
    requires a in s[..cut] && b in s[cut..]
    ensures InOrder(a, b, descending)
  {
    var j :| 0 <= j < cut && s[..cut][j] == a;
    var i :| 0 <= i < |s| - cut && s[cut..][i] == b;
    assert s[j] == a && s[cut + i] == b;
  }

  /** What a suffix of a permutation of `found` leaves out lies in the
      matching prefix. */
  lemma {:induction false} LeftOutOfSuffix(found: seq<Message>, ordered: seq<Message>, cut: nat, x: Message)
    requires multiset(ordered) == multiset(found) && cut <= |ordered|
    requires x in multiset(found) - multiset(ordered[cut..])
    ensures x in ordered[..cut]
  {
    SplitKeepsMultiset(ordered, cut);
    assert (multiset(found) - multiset(ordered[cut..]))[x] <= multiset(ordered[..cut])[x];
  }

  /** What a prefix of a permutation of `found` leaves out (counting the
      prefix through any permutation `r` of it) lies in the matching
      suffix. */
  lemma {:induction false} LeftOutOfPrefix(found: seq<Message>, ordered: seq<Message>, cut: nat, r: seq<Message>, x: Message)
    requires multiset(ordered) == multiset(found) && cut <= |ordered|
    requires multiset(r) == multiset(ordered[..cut])
    requires x in multiset(found) - multiset(r)
    ensures x in ordered[cut..]
  {
    SplitKeepsMultiset(ordered, cut);
    assert (multiset(found) - multiset(r))[x] <= multiset(ordered[cut..])[x];
  }

  lemma {:induction false} IndexedQueryKeepsNewest(found: seq<Message>, limit: nat, x: Message, m: Message)
    requires x in multiset(found) - multiset(IndexedQuery(found, limit))
    requires m in IndexedQuery(found, limit)
    ensures x.timestamp <= m.timestamp
  {
    var newest := SortBy(found, true);
    var kept := Take(newest, limit);
    var r := SortBy(kept, false);
    assert IndexedQuery(found, limit) == r;
    assert kept == newest[..|kept|];
    LeftOutOfPrefix(found, newest, |kept|, r, x);
    assert m in kept by { assert m in multiset(r); }
    SplitOrder(newest, |kept|, m, x, true);
  }

  lemma {:induction false} FallbackQueryKeepsNewest(found: seq<Message>, limit: nat, x: Message, m: Message)
    requires x in multiset(found) - multiset(FallbackQuery(found, limit))
    requires m in FallbackQuery(found, limit)
    ensures x.timestamp <= m.timestamp
  {
    var ordered := SortBy(found, false);
    var kept := SliceFromEnd(ordered, limit);
    var cut := |ordered| - |kept|;
    assert FallbackQuery(found, limit) == kept == ordered[cut..];
    LeftOutOfSuffix(found, ordered, cut, x);
    SplitOrder(ordered, cut, x, m, false);
  }

  /** Whatever path is taken, no message left out is newer than a message
      returned. */
  lemma {:induction false} RecentMessagesAreTheNewest(store: ChatStore, cid: string, limit: nat, indexMissing: bool, x: Message, m: Message)
    requires x in multiset(OfConversation(store, cid)) - multiset(GetRecentMessages(store, cid, limit, indexMissing))
    requires m in GetRecentMessages(store, cid, limit, indexMissing)
    ensures x.timestamp <= m.timestamp
  {
    var found := OfConversation(store, cid);
    if indexMissing {
      assert GetRecentMessages(store, cid, limit, indexMissing) == FallbackQuery(found, limit);
      FallbackQueryKeepsNewest(found, limit, x, m);
    } else {
      assert GetRecentMessages(store, cid, limit, indexMissing) == IndexedQuery(found, limit);
      IndexedQueryKeepsNewest(found, limit, x, m);
    }
  }

  // ----- Agreement of the indexed query and its fallback -----

  function Timestamps(s: seq<Message>): (t: seq<int>)
    ensures |t| == |s|
    ensures forall i :: 0 <= i < |s| ==> t[i] == s[i].timestamp
  {
    if |s| == 0 then [] else [s[0].timestamp] + Timestamps(s[1..])
  }

  function Reverse<T>(s: seq<T>): (r: seq<T>)
    ensures |r| == |s|
    ensures forall i :: 0 <= i < |s| ==> r[i] == s[|s| - 1 - i]
  {
    if |s| == 0 then [] else Reverse(s[1..]) + [s[0]]
  }

  lemma {:induction false} ReverseKeepsMultiset<T>(s: seq<T>)
    ensures multiset(Reverse(s)) == multiset(s)
    decreases |s|
  {
    if |s| > 0 {
      ReverseKeepsMultiset(s[1..]);
      assert Reverse(s) == Reverse(s[1..]) + [s[0]];
      assert s == [s[0]] + s[1..];
    }
  }

  /** A common part cancels from both sides of a multiset sum. */
  lemma {:induction false} MultisetCancel<T>(b: multiset<T>, c: multiset<T>, a: multiset<T>)
    requires b + a == c + a
    ensures b == c
  {
    forall z ensures b[z] == c[z] {
      assert (b + a)[z] == (c + a)[z];
    }
  }

  predicate Ascending(t: seq<int>) {
    forall i, j :: 0 <= i < j < |t| ==> t[i] <= t[j]
  }

  lemma {:induction false} TimestampsAppend(a: seq<Message>, b: seq<Message>)
    ensures Timestamps(a + b) == Timestamps(a) + Timestamps(b)
    decreases |a|
  {
    if |a| > 0 {
      assert (a + b)[1..] == a[1..] + b;
      TimestampsAppend(a[1..], b);
    } else {
      assert a + b == b;
    }
  }

  /** Removing one element from `u` at `k`, as messages. */
  lemma {:induction false} RemoveAt(u: seq<Message>, k: nat)
    requires k < |u|
    ensures multiset(u) == multiset(u[..k] + u[k + 1..]) + multiset{u[k]}
  {
    assert u == u[..k] + [u[k]] + u[k + 1..];
  }

  /** Removing one element from `u` at `k`, as timestamps. */
  lemma {:induction false} RemoveTimestampAt(u: seq<Message>, k: nat)
    requires k < |u|
    ensures multiset(Timestamps(u)) == multiset(Timestamps(u[..k] + u[k + 1..])) + multiset{u[k].timestamp}
  {
    var front, back := u[..k], u[k + 1..];
    assert u == front + [u[k]] + back;
    TimestampsAppend(front + [u[k]], back);
    TimestampsAppend(front, [u[k]]);
    TimestampsAppend(front, back);
    assert Timestamps([u[k]]) == [u[k].timestamp];
  }

  lemma {:induction false} TimestampsOfTail(s: seq<Message>)
    requires |s| > 0
    ensures multiset(Timestamps(s)) == multiset(Timestamps(s[1..])) + multiset{s[0].timestamp}
  {
    assert Timestamps(s) == [s[0].timestamp] + Timestamps(s[1..]);
  }

  /** Equal multisets of messages have equal multisets of timestamps. */
  lemma {:induction false} TimestampsFollowMultiset(s: seq<Message>, u: seq<Message>)
    requires multiset(s) == multiset(u)
    ensures multiset(Timestamps(s)) == multiset(Timestamps(u))
    decreases |s|
  {
    if |s| == 0 {
      assert |u| == |multiset(u)| == 0;
    } else {
      assert s[0] in multiset(u);
      var k :| 0 <= k < |u| && u[k] == s[0];
      var rest := u[..k] + u[k + 1..];
      var tail := s[1..];
      assert s[..0] + s[1..] == tail;
      assert multiset(rest) == multiset(tail) by {
        RemoveAt(u, k);
        RemoveAt(s, 0);
        MultisetCancel(multiset(rest), multiset(tail), multiset{s[0]});
      }
      TimestampsFollowMultiset(tail, rest);
      assert multiset(Timestamps(u)) == multiset(Timestamps(rest)) + multiset{s[0].timestamp} by {
        RemoveTimestampAt(u, k);
      }
      TimestampsOfTail(s);
    }
  }

  /** Two ascending lists of numbers with the same elements are equal. */
  lemma {:induction false} AscendingIsUnique(x: seq<int>, y: seq<int>)
    requires Ascending(x) && Ascending(y) && multiset(x) == multiset(y)
    ensures x == y
    decreases |x|
  {
    assert |x| == |multiset(x)| == |multiset(y)| == |y|;
    if |x| > 0 {
      assert x[0] in multiset(y);
      assert y[0] in multiset(x);
      assert x[0] == y[0];
      assert x == [x[0]] + x[1..];
      assert y == [y[0]] + y[1..];
      assert multiset(x) == multiset(x[1..]) + multiset{x[0]};
      assert multiset(y) == multiset(y[1..]) + multiset{y[0]};
      MultisetCancel(multiset(x[1..]), multiset(y[1..]), multiset{x[0]});
      AscendingIsUnique(x[1..], y[1..]);
    }
  }

  /** No two different messages of `s` share a timestamp. */
  predicate DistinctTimestamps(s: seq<Message>) {
    forall a, b :: a in s && b in s && a.timestamp == b.timestamp ==> a == b
  }

  /** With distinct timestamps, two ascending lists of the same messages are
      equal. */
  lemma {:induction false} SortedIsUnique(x: seq<Message>, y: seq<Message>)
    requires Sorted(x, false) && Sorted(y, false) && multiset(x) == multiset(y)
    requires DistinctTimestamps(x)
    ensures x == y
    decreases |x|
  {
    assert |x| == |multiset(x)| == |multiset(y)| == |y|;
    if |x| > 0 {
      assert x[0] in multiset(y);
      assert y[0] in multiset(x);
      assert x[0] == y[0];
      assert x == [x[0]] + x[1..];
      assert y == [y[0]] + y[1..];
      assert multiset(x) == multiset(x[1..]) + multiset{x[0]};
      assert multiset(y) == multiset(y[1..]) + multiset{y[0]};
      MultisetCancel(multiset(x[1..]), multiset(y[1..]), multiset{x[0]});
      SortedIsUnique(x[1..], y[1..]);
    }
  }

  lemma {:induction false} ReverseOfDescending(s: seq<Message>)
    requires Sorted(s, true)
    ensures Sorted(Reverse(s), false)
  {
    forall i, j | 0 <= i < j < |s| ensures InOrder(Reverse(s)[i], Reverse(s)[j], false) {
      assert InOrder(s[|s| - 1 - j], s[|s| - 1 - i], true);
    }
  }

  lemma {:induction false} AscendingTimestamps(s: seq<Message>)
    requires Sorted(s, false)
    ensures Ascending(Timestamps(s))
  {
    forall i, j | 0 <= i < j < |s| ensures Timestamps(s)[i] <= Timestamps(s)[j] {
      assert InOrder(s[i], s[j], false);
    }
  }

  lemma {:induction false} TimestampsOfReverse(s: seq<Message>)
    ensures Timestamps(Reverse(s)) == Reverse(Timestamps(s))
  {
  }

  lemma {:induction false} TimestampsOfSlices(s: seq<Message>, k: nat)
    requires k <= |s|
    ensures Timestamps(s[..k]) == Timestamps(s)[..k]
    ensures Timestamps(s[k..]) == Timestamps(s)[k..]
  {
  }

  /** The tail of a reversed list is the reversed head. */
  lemma {:induction false} ReverseTail<T>(x: seq<T>, n: nat)
    requires n <= |x|
    ensures Reverse(x)[|x| - n..] == Reverse(x[..n])
  {
  }

  /** The pieces the two paths are built from. */
  lemma {:induction false} QueryParts(found: seq<Message>, limit: nat, n: nat)
    requires limit > 0 && n == if limit < |found| then limit else |found|
    ensures IndexedQuery(found, limit) == SortBy(SortBy(found, true)[..n], false)
    ensures FallbackQuery(found, limit) == SortBy(found, false)[|found| - n..]
  {
    var newest, ordered := SortBy(found, true), SortBy(found, false);
    assert Take(newest, limit) == newest[..n];
    assert SliceFromEnd(ordered, limit) == ordered[|found| - n..];
  }

  /** Sorted descending and sorted ascending lists of the same messages have
      reversed timestamp sequences. */
  lemma {:induction false} DescendingMirrorsAscending(found: seq<Message>)
    ensures Reverse(Timestamps(SortBy(found, true))) == Timestamps(SortBy(found, false))
  {
    var newest, ordered := SortBy(found, true), SortBy(found, false);
    ReverseOfDescending(newest);
    AscendingTimestamps(Reverse(newest));
    AscendingTimestamps(ordered);
    TimestampsOfReverse(newest);
    ReverseKeepsMultiset(newest);
    TimestampsFollowMultiset(Reverse(newest), ordered);
    AscendingIsUnique(Timestamps(Reverse(newest)), Timestamps(ordered));
  }

  /** With distinct timestamps, the descending sort is the ascending sort
      reversed. */
  lemma {:induction false} DistinctDescendingMirrorsAscending(found: seq<Message>)
    requires DistinctTimestamps(found)
    ensures Reverse(SortBy(found, true)) == SortBy(found, false)
  {
    var newest, ordered := SortBy(found, true), SortBy(found, false);
    ReverseOfDescending(newest);
    ReverseKeepsMultiset(newest);
    SubMultisetMembers(Reverse(newest), found);
    SortedIsUnique(Reverse(newest), ordered);
  }

  lemma {:induction false} SortedSuffix(s: seq<Message>, k: nat, descending: bool)
    requires Sorted(s, descending) && k <= |s|
    ensures Sorted(s[k..], descending)
  {
    forall i, j | 0 <= i < j < |s| - k ensures InOrder(s[k..][i], s[k..][j], descending) {
      assert s[k..][i] == s[k + i] && s[k..][j] == s[k + j];
    }
  }

  /** The fallback's tail carries the indexed query's head timestamps,
      reversed. */
  lemma {:induction false} TailMirrorsHead(found: seq<Message>, n: nat)
    requires n <= |found|
    ensures Timestamps(SortBy(found, false)[|found| - n..]) == Reverse(Timestamps(SortBy(found, true)[..n]))
  {
    var newest, ordered := SortBy(found, true), SortBy(found, false);
    DescendingMirrorsAscending(found);
    TimestampsOfSlices(ordered, |found| - n);
    TimestampsOfSlices(newest, n);
    ReverseTail(Timestamps(newest), n);
  }

  /** Both paths return the same timestamps, counted with multiplicity. */
  lemma {:induction false} QueryTimestampsSameMultiset(found: seq<Message>, limit: nat)
    requires limit > 0
    ensures multiset(Timestamps(IndexedQuery(found, limit))) == multiset(Timestamps(FallbackQuery(found, limit)))
  {
    var n := if limit < |found| then limit else |found|;
    var top := SortBy(found, true)[..n];
    var tail := SortBy(found, false)[|found| - n..];
    QueryParts(found, limit, n);
    TailMirrorsHead(found, n);
    assert Timestamps(tail) == Reverse(Timestamps(top));
    ReverseKeepsMultiset(Timestamps(top));
    assert multiset(Timestamps(tail)) == multiset(Timestamps(top));
    TimestampsFollowMultiset(SortBy(top, false), top);
  }

  /** For a positive limit the two paths return lists with the same
      timestamps. */
  lemma {:induction false} QueryTimestampsAgree(found: seq<Message>, limit: nat)
    requires limit > 0
    ensures Timestamps(IndexedQuery(found, limit)) == Timestamps(FallbackQuery(found, limit))
  {
    QueryTimestampsSameMultiset(found, limit);
    AscendingTimestamps(IndexedQuery(found, limit));
    AscendingTimestamps(FallbackQuery(found, limit));
    AscendingIsUnique(Timestamps(IndexedQuery(found, limit)), Timestamps(FallbackQuery(found, limit)));
  }

  /** With distinct timestamps, the ascending sort's last `n` messages are
      the descending sort's first `n`, reversed. */
  lemma {:induction false} DistinctTailIsReversedHead(found: seq<Message>, n: nat)
    requires DistinctTimestamps(found) && n <= |found|
    ensures SortBy(found, false)[|found| - n..] == Reverse(SortBy(found, true)[..n])
  {
    var newest, ordered := SortBy(found, true), SortBy(found, false);
    assert Reverse(newest) == ordered by {
      DistinctDescendingMirrorsAscending(found);
    }
    TailOfReverse(newest, ordered, n);
  }

  lemma {:induction false} TailOfReverse<T>(x: seq<T>, y: seq<T>, n: nat)
    requires Reverse(x) == y && n <= |x|
    ensures y[|x| - n..] == Reverse(x[..n])
  {
    ReverseTail(x, n);
  }

  /** With distinct timestamps the two paths return the same list. */
  lemma {:induction false} DistinctQueriesAgree(found: seq<Message>, limit: nat)
    requires limit > 0
    requires DistinctTimestamps(found)
    ensures IndexedQuery(found, limit) == FallbackQuery(found, limit)
  {
    var n := if limit < |found| then limit else |found|;
    var newest, ordered := SortBy(found, true), SortBy(found, false);
    var top := newest[..n];
    var indexed := SortBy(top, false);
    var tail := ordered[|found| - n..];
    assert IndexedQuery(found, limit) == indexed && FallbackQuery(found, limit) == tail by {
      QueryParts(found, limit, n);
    }
    assert multiset(tail) == multiset(indexed) by {
      DistinctTailIsReversedHead(found, n);
      ReverseKeepsMultiset(top);
    }
    assert DistinctTimestamps(indexed) by {
      SubMultisetMembers(indexed, found);
    }
    assert Sorted(tail, false) by {
      SortedSuffix(ordered, |found| - n, false);
    }
    SortedIsUnique(indexed, tail);
  }

  /** For a positive limit the fallback returns messages with exactly the
      timestamps the indexed query returns, and exactly the same messages
      when no two messages of the conversation share a timestamp. */
  lemma {:induction false} FallbackAgreesWithIndexedQuery(store: ChatStore, cid: string, limit: nat)
    requires limit > 0
    ensures Timestamps(GetRecentMessages(store, cid, limit, false)) == Timestamps(GetRecentMessages(store, cid, limit, true))
    ensures DistinctTimestamps(OfConversation(store, cid)) ==>
      GetRecentMessages(store, cid, limit, false) == GetRecentMessages(store, cid, limit, true)
  {
    QueryTimestampsAgree(OfConversation(store, cid), limit);
    if DistinctTimestamps(OfConversation(store, cid)) {
      DistinctQueriesAgree(OfConversation(store, cid), limit);
    }
  }

  // ----- Conversations -----

  /** `createConversation`: an empty `title` falls back to the default, a
      missing context to an empty one. */
  function CreateConversation(store: ChatStore, userId: string, title: Option<string>, initialContext: Option<Context>, now: int, freshId: string)
    : (r: (Conversation, ChatStore))
    requires FreshIn(freshId, store.conversations)
    ensures r.1.messages == store.messages
    ensures r.1.conversations == store.conversations[freshId := r.0]
    ensures r.0.id == freshId && r.0.userId == userId && r.0.isActive
    ensures r.0.createdAt == now && r.0.updatedAt == now && r.0.lastMessageAt.None?
    ensures r.0.title != ""
    ensures title.Some? && title.value != "" ==> r.0.title == title.value
    ensures r.0.metadata.context == initialContext.GetOr(map[])
    ensures r.0.metadata.language == DefaultLanguage && r.0.metadata.version == SchemaVersion
  {
    var t := if title.Some? && title.value != "" then title.value else DefaultTitle;
    var c := Conversation(freshId, userId, t, now, now, None, true, InitialMetadata(initialContext.GetOr(map[])));
    (c, store.(conversations := store.conversations[freshId := c]))
  }

  /** `getConversation`, reading `MaxConversationHistory` messages. An empty
      id is not a document path, and the error is rethrown. */
  function GetConversation(store: ChatStore, cid: string, indexMissing: bool): (r: Result<Option<ConversationWithMessages>, string>)
    ensures r.Err? <==> cid == ""
    ensures r.Err? ==> r.error == DbError(EmptyPathMessage)
    ensures r.Ok? ==> (r.value.Some? <==> cid in store.conversations)
    ensures r.Ok? && r.value.Some? ==> r.value.value.conversation == store.conversations[cid]
    ensures r.Ok? && r.value.Some? ==>
      r.value.value.messages == GetRecentMessages(store, cid, MaxConversationHistory, indexMissing)
  {
    if cid == "" then Err(DbError(EmptyPathMessage))
    else if cid !in store.conversations then Ok(None)
    else Ok(Some(ConversationWithMessages(store.conversations[cid], GetRecentMessages(store, cid, MaxConversationHistory, indexMissing))))
  }

  /** A conversation reads back as created, with no messages unless stray
      messages already named its id. */
  lemma CreateThenGet(store: ChatStore, userId: string, title: Option<string>, initialContext: Option<Context>, now: int, freshId: string, indexMissing: bool)
    requires FreshIn(freshId, store.conversations)
    requires OfConversation(store, freshId) == []
    ensures var (c, after) := CreateConversation(store, userId, title, initialContext, now, freshId);
      GetConversation(after, freshId, indexMissing) == Ok(Some(ConversationWithMessages(c, [])))
  {
    var (c, after) := CreateConversation(store, userId, title, initialContext, now, freshId);
    assert OfConversation(after, freshId) == [];
  }

  /** `getOrCreateConversation`: a non-empty id of a stored conversation
      yields that conversation, whoever asks; otherwise a new conversation
      for `userId` is created and returned without messages. */
  function GetOrCreateConversation(store: ChatStore, userId: string, cid: Option<string>, now: int, freshId: string, indexMissing: bool)
    : (r: (ConversationWithMessages, ChatStore))
    requires FreshIn(freshId, store.conversations)
    ensures cid.Some? && cid.value in store.conversations && cid.value != "" ==>
      r.1 == store && Ok(Some(r.0)) == GetConversation(store, cid.value, indexMissing)
    ensures !(cid.Some? && cid.value in store.conversations && cid.value != "") ==>
      r.1.messages == store.messages
      && r.1.conversations == store.conversations[freshId := r.0.conversation]
      && r.0.conversation.userId == userId && r.0.messages == []
  {
    if cid.Some? && cid.value != "" && cid.value in store.conversations then
      (ConversationWithMessages(store.conversations[cid.value], GetRecentMessages(store, cid.value, MaxConversationHistory, indexMissing)), store)
    else
      var (c, after) := CreateConversation(store, userId, None, None, now, freshId);
      (ConversationWithMessages(c, []), after)
  }

  /** No ownership check: two users asking for the same stored conversation
      get the same answer. */
  lemma StoredConversationIgnoresAsker(store: ChatStore, user1: string, user2: string, cid: string, now: int, freshId: string, indexMissing: bool)
    requires FreshIn(freshId, store.conversations)
    requires cid != "" && cid in store.conversations
    ensures GetOrCreateConversation(store, user1, Some(cid), now, freshId, indexMissing)
      == GetOrCreateConversation(store, user2, Some(cid), now, freshId, indexMissing)
    ensures GetOrCreateConversation(store, user1, Some(cid), now, freshId, indexMissing).0.conversation.userId
      == store.conversations[cid].userId
  {
  }

  /** The message `addMessage` writes. */
  function NewMessage(id: string, cid: string, role: Role, content: string, metadata: Option<Context>, now: int): Message {
    Message(id, cid, role, content, now, metadata.GetOr(map[]))
  }

  /** `addMessage`: the message is written first, then the conversation's
      `lastMessageAt` and `updatedAt`; when that update fails the message
      stays written and the error is rethrown. */
  function AddMessage(store: ChatStore, cid: string, role: Role, content: string, metadata: Option<Context>, now: int, freshId: string)
    : (r: (Result<Message, string>, ChatStore))
    requires FreshMessageId(store, freshId)
    ensures r.1.messages == store.messages + [NewMessage(freshId, cid, role, content, metadata, now)]
    ensures r.0.Ok? <==> cid != "" && cid in store.conversations
    ensures r.0.Err? ==> r.0.error == DbError(if cid == "" then EmptyPathMessage else NoDocumentToUpdate)
    ensures r.0.Err? ==> r.1.conversations == store.conversations
    ensures r.0.Ok? ==> r.0.value == NewMessage(freshId, cid, role, content, metadata, now)
    ensures r.0.Ok? ==> r.1.conversations.Keys == store.conversations.Keys
    ensures r.0.Ok? ==> r.1.conversations[cid] == store.conversations[cid].(lastMessageAt := Some(now), updatedAt := now)
    ensures r.0.Ok? ==> forall k :: k in store.conversations && k != cid ==> r.1.conversations[k] == store.conversations[k]
  {
    var m := NewMessage(freshId, cid, role, content, metadata, now);
    var written := store.(messages := store.messages + [m]);
    if cid == "" then (Err(DbError(EmptyPathMessage)), written)
    else if cid !in store.conversations then (Err(DbError(NoDocumentToUpdate)), written)
    else
      var c := store.conversations[cid];
      (Ok(m), written.(conversations := store.conversations[cid := c.(lastMessageAt := Some(now), updatedAt := now)]))
  }

  /** The written message joins its conversation's messages, as a new one. */
  lemma {:induction false} AddedMessageJoins(store: ChatStore, cid: string, role: Role, content: string, metadata: Option<Context>, now: int, freshId: string)
    requires FreshMessageId(store, freshId)
    ensures var after := AddMessage(store, cid, role, content, metadata, now, freshId).1;
      var m := NewMessage(freshId, cid, role, content, metadata, now);
      OfConversation(after, cid) == OfConversation(store, cid) + [m] && m !in OfConversation(store, cid)
  {
    var m := NewMessage(freshId, cid, role, content, metadata, now);
    WhereAppend(store.messages, [m], cid, true);
    assert Where([m][1..], cid, true) == [] by { assert [m][1..] == []; }
  }

  /** A message strictly newer than every other message of its conversation
      is the last one read back, on either path. */
  lemma {:induction false} NewestIsReadBackLast(store: ChatStore, cid: string, limit: nat, indexMissing: bool, m: Message)
    requires limit > 0
    requires m in OfConversation(store, cid)
    requires forall x :: x in OfConversation(store, cid) && x != m ==> x.timestamp < m.timestamp
    ensures var r := GetRecentMessages(store, cid, limit, indexMissing);
      |r| > 0 && r[|r| - 1] == m
  {
    var r := GetRecentMessages(store, cid, limit, indexMissing);
    NewestIsKept(store, cid, limit, indexMissing, m);
    forall x | x in r && x != m ensures x.timestamp < m.timestamp {
      RecentMemberOfConversation(store, cid, limit, indexMissing, x);
    }
    NewestIsLast(r, m);
  }

  lemma {:induction false} RecentMemberOfConversation(store: ChatStore, cid: string, limit: nat, indexMissing: bool, x: Message)
    requires x in GetRecentMessages(store, cid, limit, indexMissing)
    ensures x in OfConversation(store, cid)
  {
    var r := GetRecentMessages(store, cid, limit, indexMissing);
    assert x in multiset(OfConversation(store, cid)) by { assert x in multiset(r); }
  }

  /** A message strictly newer than every other message of its conversation
      is among those read back. */
  lemma {:induction false} NewestIsKept(store: ChatStore, cid: string, limit: nat, indexMissing: bool, m: Message)
    requires limit > 0
    requires m in OfConversation(store, cid)
    requires forall x :: x in OfConversation(store, cid) && x != m ==> x.timestamp < m.timestamp
    ensures m in GetRecentMessages(store, cid, limit, indexMissing)
  {
    var r := GetRecentMessages(store, cid, limit, indexMissing);
    if m !in r {
      assert m in multiset(OfConversation(store, cid)) - multiset(r);
      RecentMessagesAreTheNewest(store, cid, limit, indexMissing, m, r[0]);
      RecentMemberOfConversation(store, cid, limit, indexMissing, r[0]);
    }
  }

  /** In an ascending list, an element strictly newer than all others is the
      last one. */
  lemma {:induction false} NewestIsLast(r: seq<Message>, m: Message)
    requires Sorted(r, false) && m in r
    requires forall x :: x in r && x != m ==> x.timestamp < m.timestamp
    ensures |r| > 0 && r[|r| - 1] == m
  {
    var k :| 0 <= k < |r| && r[k] == m;
    assert InOrder(r[k], r[|r| - 1], false);
    assert r[|r| - 1] in r;
  }

  /** A message added later than every other message of its conversation is
      the last one read back, on either path, whether or not the
      conversation's update succeeded. */
  lemma {:induction false} AddedMessageIsReadBackLast(
    store: ChatStore, cid: string, role: Role, content: string, metadata: Option<Context>, now: int, freshId: string,
    limit: nat, indexMissing: bool)
    requires FreshMessageId(store, freshId)
    requires forall m :: m in OfConversation(store, cid) ==> m.timestamp < now
    requires limit > 0
    ensures var after := AddMessage(store, cid, role, content, metadata, now, freshId).1;
      var r := GetRecentMessages(after, cid, limit, indexMissing);
      |r| > 0 && r[|r| - 1] == NewMessage(freshId, cid, role, content, metadata, now)
  {
    var m := NewMessage(freshId, cid, role, content, metadata, now);
    var after := AddMessage(store, cid, role, content, metadata, now, freshId).1;
    AddedMessageJoins(store, cid, role, content, metadata, now, freshId);
    NewestIsReadBackLast(after, cid, limit, indexMissing, m);
  }

  /** Whether `userId` may reset or delete `cid`, as `resetConversation` and
      `deleteConversation` check it: an error, or the conversation. */
  function CheckOwner(store: ChatStore, cid: string, userId: string): (r: Result<Conversation, string>)
    ensures r.Ok? <==> cid != "" && cid in store.conversations && store.conversations[cid].userId == userId
    ensures r.Ok? ==> r.value == store.conversations[cid]
    ensures r.Err? ==> r.error == DbError(if cid == "" then DbError(EmptyPathMessage) else ConversationNotFound)
  {
    match GetConversation(store, cid, false)
    case Err(e) => Err(DbError(e))
    case Ok(found) =>
      if found.None? || found.value.conversation.userId != userId then Err(DbError(ConversationNotFound))
      else Ok(found.value.conversation)
  }

  /** `resetConversation`: the owner's conversation loses its messages and
      gets its initial metadata back; everything else stays. */
  function ResetConversation(store: ChatStore, cid: string, userId: string, now: int): (r: Result<ChatStore, string>)
    ensures r.Ok? <==> CheckOwner(store, cid, userId).Ok?
    ensures r.Err? ==> r.error == CheckOwner(store, cid, userId).error
    ensures r.Ok? ==> OfConversation(r.value, cid) == []
    ensures r.Ok? ==> Where(r.value.messages, cid, false) == Where(store.messages, cid, false)
    ensures r.Ok? ==> r.value.conversations.Keys == store.conversations.Keys
    ensures r.Ok? ==> (forall k :: k in store.conversations && k != cid ==> r.value.conversations[k] == store.conversations[k])
    ensures r.Ok? ==> var c := r.value.conversations[cid];
      c == store.conversations[cid].(metadata := c.metadata, updatedAt := c.updatedAt)
      && c.metadata == InitialMetadata(map[]) && c.updatedAt == now
  {
    match CheckOwner(store, cid, userId)
    case Err(e) => Err(e)
    case Ok(c) =>
      WhereTwice(store.messages, cid, false);
      Ok(ChatStore(store.conversations[cid := c.(metadata := InitialMetadata(map[]), updatedAt := now)],
                   Where(store.messages, cid, false)))
  }

  /** `deleteConversation`: the owner's conversation and its messages go;
      everything else stays. */
  function DeleteConversation(store: ChatStore, cid: string, userId: string): (r: Result<ChatStore, string>)
    ensures r.Ok? <==> CheckOwner(store, cid, userId).Ok?
    ensures r.Err? ==> r.error == CheckOwner(store, cid, userId).error
    ensures r.Ok? ==> cid !in r.value.conversations && OfConversation(r.value, cid) == []
    ensures r.Ok? ==> Where(r.value.messages, cid, false) == Where(store.messages, cid, false)
    ensures r.Ok? ==> r.value.conversations.Keys == store.conversations.Keys - {cid}
    ensures r.Ok? ==> forall k :: k in r.value.conversations ==> r.value.conversations[k] == store.conversations[k]
  {
    match CheckOwner(store, cid, userId)
    case Err(e) => Err(e)
    case Ok(_) =>
      WhereTwice(store.messages, cid, false);
      Ok(ChatStore(store.conversations - {cid}, Where(store.messages, cid, false)))
  }

  /** After a reset the conversation reads back with no messages; after a
      delete it is gone, and a second delete reports it not found. */
  lemma ResetAndDeleteReadBack(store: ChatStore, cid: string, userId: string, now: int, indexMissing: bool)
    requires cid != "" && cid in store.conversations && store.conversations[cid].userId == userId
    ensures var reset := ResetConversation(store, cid, userId, now).value;
      GetConversation(reset, cid, indexMissing) == Ok(Some(ConversationWithMessages(reset.conversations[cid], [])))
    ensures var deleted := DeleteConversation(store, cid, userId).value;
      GetConversation(deleted, cid, indexMissing) == Ok(None)
      && DeleteConversation(deleted, cid, userId) == Err(DbError(ConversationNotFound))
  {
  }
}
