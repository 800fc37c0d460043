/**
 * Local storage of the transcript history and the glossary. Each list is
 * kept under its own key of a key-value store; history is cut to a maximum
 * length when saved, and both lists are loaded newest first.
 *
 * The store is a map from key to what was written there. JSON encoding and
 * decoding are not modelled: an encoded list decodes to itself, and
 * anything else under a key (nothing, a list of the other kind, data of
 * another shape) fails to decode.
 */
module Storage {
  import opened Models

  const DefaultHistoryKey: string := "kaiwa.history.entries"
  const DefaultGlossaryKey: string := "kaiwa.history.glossary"
  const DefaultMaxHistoryEntries: nat := 500

  /** What a key of the store holds. */
  datatype Stored =
    | EncodedHistory(entries: seq<ConversationEntry>)
    | EncodedGlossary(items: seq<GlossaryItem>)
    | OtherData  // a value that does not decode as either list

  type Store = map<string, Stored>

  // ---------------------------------------------------------------------
  // Sorting newest first

  /** Every element's key is at least that of any element after it. */
  ghost predicate SortedDescending<T>(s: seq<T>, key: T -> int) {
    forall i, j :: 0 <= i < j < |s| ==> key(s[i]) >= key(s[j])
  }

  /** Places `x` before the first element whose key is not above `x`'s. */
  function Insert<T>(x: T, s: seq<T>, key: T -> int): (r: seq<T>)
    ensures multiset(r) == multiset(s) + multiset{x}
  {
    if s == [] || key(x) >= key(s[0]) then [x] + s
    else
      assert s == [s[0]] + s[1..];
      [s[0]] + Insert(x, s[1..], key)
  }

  /** Inserting keeps every key within any bound that holds for `x` and all of `s`. */
  lemma {:induction false} InsertBounded<T>(x: T, s: seq<T>, key: T -> int, bound: int)
    requires key(x) <= bound
    requires forall i :: 0 <= i < |s| ==> key(s[i]) <= bound
    ensures forall i :: 0 <= i < |Insert(x, s, key)| ==> key(Insert(x, s, key)[i]) <= bound
  {
    if s != [] && key(x) < key(s[0]) {
      InsertBounded(x, s[1..], key, bound);
    }
  }

  lemma {:induction false} InsertSorted<T>(x: T, s: seq<T>, key: T -> int)
    requires SortedDescending(s, key)
    ensures SortedDescending(Insert(x, s, key), key)
  {
    if s != [] && key(x) < key(s[0]) {
      var tail := s[1..];
      assert SortedDescending(tail, key) by {
        forall i, j | 0 <= i < j < |tail|
          ensures key(tail[i]) >= key(tail[j])
        {
          assert tail[i] == s[i + 1] && tail[j] == s[j + 1];
        }
      }
      assert forall i :: 0 <= i < |tail| ==> key(tail[i]) <= key(s[0]) by {
        forall i | 0 <= i < |tail|
          ensures key(tail[i]) <= key(s[0])
        {
          assert tail[i] == s[i + 1];
        }
      }
      InsertSorted(x, tail, key);
      InsertBounded(x, tail, key, key(s[0]));
      var rest := Insert(x, tail, key);
      var r := [s[0]] + rest;
      assert r == Insert(x, s, key);
      forall i, j | 0 <= i < j < |r|
        ensures key(r[i]) >= key(r[j])
      {
        assert r[j] == rest[j - 1];
        if i > 0 {
          assert r[i] == rest[i - 1];
        }
      }
    }
  }

  /** The list ordered by key, largest first: a permutation of the input that is sorted. */
  function SortDescending<T>(xs: seq<T>, key: T -> int): (r: seq<T>)
    ensures multiset(r) == multiset(xs)
    ensures SortedDescending(r, key)
  {
    if xs == [] then []
    else
      var sortedTail := SortDescending(xs[1..], key);
      InsertSorted(xs[0], sortedTail, key);
      assert xs == [xs[0]] + xs[1..];
      Insert(xs[0], sortedTail, key)
  }

  /** A list that is already in order comes back unchanged. */
  lemma {:induction false} SortKeepsSorted<T>(xs: seq<T>, key: T -> int)
    requires SortedDescending(xs, key)
    ensures SortDescending(xs, key) == xs
  {
    if xs != [] {
      assert SortedDescending(xs[1..], key) by {
        forall i, j | 0 <= i < j < |xs[1..]|
          ensures key(xs[1..][i]) >= key(xs[1..][j])
        {
          assert xs[1..][i] == xs[i + 1] && xs[1..][j] == xs[j + 1];
        }
      }
      SortKeepsSorted(xs[1..], key);
      assert xs == [xs[0]] + xs[1..];
    }
  }

  function EntryTime(e: ConversationEntry): int { e.timestamp }

  function ItemTime(g: GlossaryItem): int { g.updatedAt }

  // ---------------------------------------------------------------------
  // The store, as values

  /** `decode(forKey:defaultValue:)` for a history list: the list stored there, else the empty list. */
  function DecodedHistory(store: Store, key: string): (r: seq<ConversationEntry>)
    ensures (key !in store || !store[key].EncodedHistory?) ==> r == []
  {
    if key in store && store[key].EncodedHistory? then store[key].entries else []
  }

  /** The same for a glossary list. */
  function DecodedGlossary(store: Store, key: string): (r: seq<GlossaryItem>)
    ensures (key !in store || !store[key].EncodedGlossary?) ==> r == []
  {
    if key in store && store[key].EncodedGlossary? then store[key].items else []
  }

  /** `Array(entries.prefix(maxHistoryEntries))`: the first entries, as many as fit. */
  function HistoryPrefix(entries: seq<ConversationEntry>, maxHistoryEntries: nat): (r: seq<ConversationEntry>)
    ensures |r| == if |entries| < maxHistoryEntries then |entries| else maxHistoryEntries
    ensures r == entries[..|r|]
  {
    if |entries| <= maxHistoryEntries then entries else entries[..maxHistoryEntries]
  }

  /** The store after a save: the new value under the key when encoding works, else no change. */
  function Saved(store: Store, key: string, value: Stored, encodeOk: bool): (r: Store)
    ensures encodeOk ==> key in r && r[key] == value
    ensures forall k :: k != key ==> (k in r <==> k in store) && (k in r ==> r[k] == store[k])
    ensures !encodeOk ==> r == store
  {
    if encodeOk then store[key := value] else store
  }

  function LoadedHistory(store: Store, key: string): seq<ConversationEntry> {
    SortDescending(DecodedHistory(store, key), EntryTime)
  }

  function LoadedGlossary(store: Store, key: string): seq<GlossaryItem> {
    SortDescending(DecodedGlossary(store, key), ItemTime)
  }

  /**
   * Saving history and loading it again gives back what was kept, newest
   * first; a list that was newest first and short enough comes back as it was.
   */
  lemma HistoryRoundTrip(store: Store, key: string, entries: seq<ConversationEntry>, maxHistoryEntries: nat)
    ensures var loaded := LoadedHistory(Saved(store, key, EncodedHistory(HistoryPrefix(entries, maxHistoryEntries)), true), key);
      && multiset(loaded) == multiset(HistoryPrefix(entries, maxHistoryEntries))
      && SortedDescending(loaded, EntryTime)
      && |loaded| <= maxHistoryEntries
    ensures SortedDescending(entries, EntryTime) && |entries| <= maxHistoryEntries ==>
      LoadedHistory(Saved(store, key, EncodedHistory(HistoryPrefix(entries, maxHistoryEntries)), true), key) == entries
  {
    var kept := HistoryPrefix(entries, maxHistoryEntries);
    var loaded := LoadedHistory(Saved(store, key, EncodedHistory(kept), true), key);
    assert |loaded| == |multiset(loaded)| == |multiset(kept)| == |kept|;
    if SortedDescending(entries, EntryTime) && |entries| <= maxHistoryEntries {
      SortKeepsSorted(entries, EntryTime);
    }
  }

  /** One saved entry loads back as that entry, whenever the limit allows one. */
  lemma SingleEntryRoundTrip(store: Store, key: string, e: ConversationEntry, maxHistoryEntries: nat)
    requires maxHistoryEntries >= 1
    ensures LoadedHistory(Saved(store, key, EncodedHistory(HistoryPrefix([e], maxHistoryEntries)), true), key) == [e]
  {
    HistoryRoundTrip(store, key, [e], maxHistoryEntries);
  }

  /** Saving a glossary keeps every item; loading it gives them all back, newest first. */
  lemma GlossaryRoundTrip(store: Store, key: string, items: seq<GlossaryItem>)
    ensures var loaded := LoadedGlossary(Saved(store, key, EncodedGlossary(items), true), key);
      multiset(loaded) == multiset(items) && SortedDescending(loaded, ItemTime)
    ensures SortedDescending(items, ItemTime) ==> LoadedGlossary(Saved(store, key, EncodedGlossary(items), true), key) == items
    ensures |items| == 1 ==> LoadedGlossary(Saved(store, key, EncodedGlossary(items), true), key) == items
  {
    if SortedDescending(items, ItemTime) {
      SortKeepsSorted(items, ItemTime);
    }
  }

  /** Under distinct keys, saving one list leaves what the other loads untouched. */
  lemma SavesAreIndependent(store: Store, historyKey: string, glossaryKey: string,
                            entries: seq<ConversationEntry>, items: seq<GlossaryItem>, encodeOk: bool)
    requires historyKey != glossaryKey
    ensures LoadedGlossary(Saved(store, historyKey, EncodedHistory(entries), encodeOk), glossaryKey) == LoadedGlossary(store, glossaryKey)
    ensures LoadedHistory(Saved(store, glossaryKey, EncodedGlossary(items), encodeOk), historyKey) == LoadedHistory(store, historyKey)
  {
    assert DecodedGlossary(Saved(store, historyKey, EncodedHistory(entries), encodeOk), glossaryKey) == DecodedGlossary(store, glossaryKey);
    assert DecodedHistory(Saved(store, glossaryKey, EncodedGlossary(items), encodeOk), historyKey) == DecodedHistory(store, historyKey);
  }

  /** When both lists share a key, a non-empty glossary saved there makes history load empty. */
  lemma SharedKeyOverwrites(store: Store, key: string, items: seq<GlossaryItem>)
    ensures LoadedHistory(Saved(store, key, EncodedGlossary(items), true), key) == []
  {
  }

  // ---------------------------------------------------------------------
  // The service

  class SessionStorage {
    /** The user-defaults store the service writes into. */
    var store: Store
    const historyKey: string
    const glossaryKey: string
    const maxHistoryEntries: nat

    constructor (userDefaults: Store, historyKey: string, glossaryKey: string, maxHistoryEntries: nat)
      ensures store == userDefaults
      ensures this.historyKey == historyKey && this.glossaryKey == glossaryKey
      ensures this.maxHistoryEntries == maxHistoryEntries
    {
      store := userDefaults;
      this.historyKey := historyKey;
      this.glossaryKey := glossaryKey;
      this.maxHistoryEntries := maxHistoryEntries;
    }

    /** The service with its default keys and limit. */
    constructor Standard(userDefaults: Store)
      ensures store == userDefaults
      ensures historyKey == DefaultHistoryKey && glossaryKey == DefaultGlossaryKey
      ensures maxHistoryEntries == DefaultMaxHistoryEntries
    {
      store := userDefaults;
      historyKey := DefaultHistoryKey;
      glossaryKey := DefaultGlossaryKey;
      maxHistoryEntries := DefaultMaxHistoryEntries;
    }

    /** `loadHistory`: the stored history, newest first; empty when there is none that decodes. */
    function LoadHistory(): (r: seq<ConversationEntry>)
      reads this
      ensures multiset(r) == multiset(DecodedHistory(store, historyKey))
      ensures SortedDescending(r, EntryTime)
    {
      LoadedHistory(store, historyKey)
    }

    /** `loadGlossary`: the stored glossary, most recently updated first. */
    function LoadGlossary(): (r: seq<GlossaryItem>)
      reads this
      ensures multiset(r) == multiset(DecodedGlossary(store, glossaryKey))
      ensures SortedDescending(r, ItemTime)
    {
      LoadedGlossary(store, glossaryKey)
    }

    /** `saveHistory`: keeps at most the first `maxHistoryEntries` entries; a failed encoding writes nothing. */
    method SaveHistory(entries: seq<ConversationEntry>, encodeOk: bool)
      modifies this
      ensures store == Saved(old(store), historyKey, EncodedHistory(HistoryPrefix(entries, maxHistoryEntries)), encodeOk)
    {
      var trimmed := HistoryPrefix(entries, maxHistoryEntries);
      if encodeOk {
        store := store[historyKey := EncodedHistory(trimmed)];
      }
    }

    /** `saveGlossary`: writes every item; a failed encoding writes nothing. */
    method SaveGlossary(items: seq<GlossaryItem>, encodeOk: bool)
      modifies this
      ensures store == Saved(old(store), glossaryKey, EncodedGlossary(items), encodeOk)
    {
      if encodeOk {
        store := store[glossaryKey := EncodedGlossary(items)];
      }
    }
  }
}
